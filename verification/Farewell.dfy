/** The close the operator's handler sends of its own accord when its loop is over. */
module Farewell {
  import opened Wire
  import opened Pipes
  import opened OperatorStream
  import opened RelaySystem
  import opened RelayInvariant
  import opened Invariance
  import opened Evolution
  import opened Grammar
  import opened Frames
  import opened Forwarding

  /** The stream was opened, and its handler is past its loop and past telling the agent. */
  predicate PastTelling(w: World, s: StreamId) {
    s in w.ops && w.ops[s].started && (w.ops[s].pc.Removing? || w.ops[s].pc.Gone?)
  }

  lemma LocalNeverPasses(op: Operator, s: StreamId, out: Pipe, st: OperatorStep)
    requires OperatorEnabled(op, out, st)
    ensures var op' := OperatorNext(op, s, out, st);
      op'.started == op.started && (op'.pc.Removing? || op'.pc.Gone? ==> op'.pc == op.pc)
  {
  }

  lemma SendNeverPasses(w: World, w': World, s: StreamId, side: OperatorSide)
    requires HasOp(w, s) && OperatorSideEnabled(w, s, side) && w' == OperatorSideNext(w, s, side)
    requires side.SendOpen? || side.Forward?
    ensures !PastTelling(w', s)
  {
    match side {
      case SendOpen =>
      case Forward =>
    }
  }

  lemma InsertNeverPasses(w: World, w': World, s: StreamId)
    requires HasOp(w, s) && HandlerPcOk(w.ops[s], s) && w.ops[s].pc.Inserting? && w' == InsertNext(w, s)
    ensures !PastTelling(w', s)
  {
  }

  /** Only telling the agent brings a handler past it. */
  lemma OwnPasses(w: World, w': World, s: StreamId, side: OperatorSide)
    requires HasOp(w, s) && HandlerPcOk(w.ops[s], s) && OperatorSideEnabled(w, s, side)
          && w' == OperatorSideNext(w, s, side)
    requires PastTelling(w', s) && !side.TellAgentDone?
    ensures PastTelling(w, s)
  {
    if IsSend(side) {
      SendNeverPasses(w, w', s, side);
    } else {
      match side {
        case Local(step) => LocalNeverPasses(w.ops[s], s, w.toOp[s], step);
        case Check => Cleanup.CheckNeverFinishes(w, w', s);
        case Insert => InsertNeverPasses(w, w', s);
        case SendOpenLost =>
        case ForwardLost =>
        case RemoveOwn =>
      }
    }
  }

  lemma OthersPass(w: World, w': World, st: Step, s: StreamId)
    requires Ready(w, st) && Enabled(w, st) && w' == Next(w, st) && (st.ByOperator? ==> st.stream != s)
    requires PastTelling(w', s)
    ensures PastTelling(w, s) && w'.ops[s] == w.ops[s]
  {
    match st {
      case ByAgent(b, side) => SideHasEffect(w, w', b, side);
      case ByOperator(r, side) => OperatorHasEffect(w, w', r, side);
      case _ =>
    }
  }

  /** What an agent's pipe says of a stream when the stream's handler sends nothing. */
  lemma PipeStays(w: World, w': World, st: Step, a: AgentId, s: StreamId)
    requires Ready(w, st) && Enabled(w, st) && w' == Next(w, st) && HasAgent(w, a)
    requires st.ByOperator? && st.stream == s ==> !IsSend(st.opSide)
    ensures a in w'.toAgent && PipeGrows(w.toAgent[a], w'.toAgent[a], s, [])
  {
    match st {
      case ByAgent(b, side) => SidePipes(w, w', b, side, a, s);
      case ByOperator(r, side) =>
        if r == s {
          StillPipes(w, w', r, side);
          SamePipe(w.toAgent[a], w'.toAgent[a], s);
        } else {
          OperatorPipes(w, w', r, side, a, s);
        }
      case _ => TablePipes(w, w', st, a, s);
    }
  }

  /** The agent's channel accepted about the stream its opening, all frames taken, and the handler's close. */
  predicate ToldClose(w: World, s: StreamId, a: AgentId) {
    s in w.ops && a in w.toAgent
    && OnStream(w.toAgent[a].Sent(), s)
       == [OpenStream(s, w.ops[s].target)] + Relabelled(w.ops[s].taken, s) + [StreamClose(s)]
  }

  lemma TellCloses(w: World, w': World, s: StreamId, a: AgentId)
    requires HasOp(w, s) && HandlerPcOk(w.ops[s], s) && ForwardedAt(w, s) && w.ops[s].agent == Some(a)
    requires OperatorSideEnabled(w, s, TellAgentDone) && w' == OperatorSideNext(w, s, TellAgentDone)
    requires w.toAgent[a].chan.CanSend()
    ensures ToldClose(w', s, a)
  {
    var sent := OnStream(w.toAgent[a].Sent(), s);
    SendAppends(w.toAgent[a], StreamClose(s));
    OnStreamAppend(w.toAgent[a].Sent(), StreamClose(s), s);
    assert sent + [] == sent;
  }

  /** In some step before `j` the handler told its agent, and if the channel had room the close is there. */
  ghost predicate ToldBefore(run: seq<World>, steps: seq<Step>, j: nat, s: StreamId, a: AgentId)
    requires |run| == |steps| + 1 && j < |run|
  {
    exists k: nat :: k < j && steps[k] == ByOperator(s, TellAgentDone) && a in run[k].toAgent
                     && (run[k].toAgent[a].chan.CanSend() ==> ToldClose(run[j], s, a))
  }

  lemma ToldNow(run: seq<World>, steps: seq<Step>, i: nat, s: StreamId, a: AgentId)
    requires IsRun(run, steps) && i < |steps| && steps[i] == ByOperator(s, TellAgentDone)
    requires s in run[i].ops && run[i].ops[s].agent == Some(a)
    ensures ToldBefore(run, steps, i + 1, s, a)
  {
    RunForwarded(run, steps, i, s);
    RunKeeps(run, steps, i);
    assert Follows(run, steps, i);
    InvReady(run[i], steps[i]);
    if run[i].toAgent[a].chan.CanSend() {
      TellCloses(run[i], run[i + 1], s, a);
    }
  }

  lemma StillTold(run: seq<World>, steps: seq<Step>, i: nat, s: StreamId, a: AgentId)
    requires IsRun(run, steps) && i < |steps| && ToldBefore(run, steps, i, s, a) && HasAgent(run[i], a)
    requires s in run[i].ops && s in run[i + 1].ops && run[i + 1].ops[s].target == run[i].ops[s].target
    requires run[i + 1].ops[s].taken == run[i].ops[s].taken
    requires steps[i].ByOperator? && steps[i].stream == s ==> !IsSend(steps[i].opSide)
    ensures ToldBefore(run, steps, i + 1, s, a)
  {
    RunKeeps(run, steps, i);
    assert Follows(run, steps, i);
    InvReady(run[i], steps[i]);
    PipeStays(run[i], run[i + 1], steps[i], a, s);
    var k: nat :| k < i && steps[k] == ByOperator(s, TellAgentDone) && a in run[k].toAgent
                  && (run[k].toAgent[a].chan.CanSend() ==> ToldClose(run[i], s, a));
    var sent := OnStream(run[i].toAgent[a].Sent(), s);
    assert sent + [] == sent;
    assert run[k].toAgent[a].chan.CanSend() ==> ToldClose(run[i + 1], s, a);
  }

  /** Once told, the handler only removes its stream. */
  lemma AfterTelling(w: World, w': World, s: StreamId, side: OperatorSide)
    requires HasOp(w, s) && HandlerPcOk(w.ops[s], s) && OperatorSideEnabled(w, s, side)
          && w' == OperatorSideNext(w, s, side)
    requires PastTelling(w, s)
    ensures !IsSend(side) && s in w'.ops && w'.ops[s].taken == w.ops[s].taken
    ensures w'.ops[s].target == w.ops[s].target && w'.ops[s].agent == w.ops[s].agent
  {
    match side {
      case Local(_) =>
      case RemoveOwn =>
    }
  }

  /** How a handler comes to be past telling its agent, and what it still does. */
  ghost predicate Passes(w: World, w': World, st: Step, s: StreamId) {
    && s in w.ops && s in w'.ops && w.ops[s].target == w'.ops[s].target && w.ops[s].agent == w'.ops[s].agent
    && (PastTelling(w, s) || st == ByOperator(s, TellAgentDone))
    && (PastTelling(w, s) ==>
          w.ops[s].taken == w'.ops[s].taken && (st.ByOperator? && st.stream == s ==> !IsSend(st.opSide)))
  }

  lemma TellPasses(w: World, w': World, s: StreamId)
    requires HasOp(w, s) && OperatorSideEnabled(w, s, TellAgentDone) && w' == OperatorSideNext(w, s, TellAgentDone)
    ensures Passes(w, w', ByOperator(s, TellAgentDone), s)
  {
  }

  lemma OwnStepPasses(w: World, w': World, s: StreamId, side: OperatorSide)
    requires HasOp(w, s) && HandlerPcOk(w.ops[s], s) && OperatorSideEnabled(w, s, side)
          && w' == OperatorSideNext(w, s, side)
    requires PastTelling(w', s)
    ensures Passes(w, w', ByOperator(s, side), s)
  {
    if side.TellAgentDone? {
      TellPasses(w, w', s);
    } else {
      OwnPasses(w, w', s, side);
      AfterTelling(w, w', s, side);
    }
  }

  lemma PassedStep(run: seq<World>, steps: seq<Step>, i: nat, s: StreamId)
    requires IsRun(run, steps) && i < |steps| && PastTelling(run[i + 1], s)
    ensures Passes(run[i], run[i + 1], steps[i], s)
  {
    RunKeeps(run, steps, i);
    assert Follows(run, steps, i);
    InvReady(run[i], steps[i]);
    if steps[i].ByOperator? && steps[i].stream == s {
      OwnStepPasses(run[i], run[i + 1], s, steps[i].opSide);
    } else {
      OthersPass(run[i], run[i + 1], steps[i], s);
    }
  }

  /** Over any run, a handler that opened its stream and is past its loop has told its agent: what the
      agent's channel accepted about the stream ends in the handler's close, unless the channel was full or
      closed in the very step that tried. */
  lemma {:induction false} FinishedStreamsTellTheirAgent(run: seq<World>, steps: seq<Step>, j: nat, s: StreamId)
    requires IsRun(run, steps) && j < |run| && PastTelling(run[j], s)
    ensures run[j].ops[s].agent.Some? && ToldBefore(run, steps, j, s, run[j].ops[s].agent.value)
  {
    assert j > 0;
    PassedStep(run, steps, j - 1, s);
    LinkAt(run, steps, j - 1, s);
    PastIsLinked(run, steps, j, s);
    if PastTelling(run[j - 1], s) {
      FinishedStreamsTellTheirAgent(run, steps, j - 1, s);
      StillTold(run, steps, j - 1, s, run[j].ops[s].agent.value);
    } else {
      ToldNow(run, steps, j - 1, s, run[j].ops[s].agent.value);
    }
  }

  lemma PastIsLinked(run: seq<World>, steps: seq<Step>, j: nat, s: StreamId)
    requires IsRun(run, steps) && j < |run| && PastTelling(run[j], s)
    ensures run[j].ops[s].agent.Some?
  {
    RunKeeps(run, steps, j);
    assert OpInv(run[j], s);
  }
}
