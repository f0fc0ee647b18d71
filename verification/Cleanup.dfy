/** Which streams leave the relay's maps: those whose operator handler has finished after opening them,
    and those whose end the agent's handler has dealt with. A stream whose `OpenStream` could not be sent
    is the exception. */
module Cleanup {
  import opened Wire
  import opened Pipes
  import opened AgentProcess
  import opened OperatorStream
  import opened RelayRules
  import opened RelaySystem
  import opened RelayInvariant
  import opened Invariance
  import opened Evolution
  import opened Delivery

  /* ---------- operator handlers that have finished ---------- */

  predicate HasFinished(w: World, s: StreamId) {
    s in w.ops && w.ops[s].pc.Gone? && w.ops[s].started
  }

  ghost predicate FinishedIsOut(w: World, s: StreamId) {
    HasFinished(w, s) ==> !InSomeMap(w.sessions, s)
  }

  lemma LocalNeverFinishes(op: Operator, s: StreamId, out: Pipe, step: OperatorStep)
    requires OperatorEnabled(op, out, step)
    ensures OperatorNext(op, s, out, step).pc.Gone? ==> op.pc.Gone?
    ensures OperatorNext(op, s, out, step).started == op.started
  {
  }

  lemma SendNeverFinishes(w: World, w': World, s: StreamId, side: OperatorSide)
    requires HasOp(w, s) && OperatorSideEnabled(w, s, side) && w' == OperatorSideNext(w, s, side) && IsSend(side)
    ensures !HasFinished(w', s)
  {
    match side {
      case SendOpen =>
      case Forward =>
      case TellAgentDone =>
    }
  }

  /** Only the removal finishes a handler that had opened its stream. */
  lemma WhatFinishes(w: World, w': World, s: StreamId, side: OperatorSide)
    requires HasOp(w, s) && OperatorSideEnabled(w, s, side) && w' == OperatorSideNext(w, s, side) && !IsSend(side)
    requires HandlerPcOk(w.ops[s], s)
    ensures HasFinished(w', s) ==> side.RemoveOwn? || HasFinished(w, s)
  {
    match side {
      case Local(step) => LocalNeverFinishes(w.ops[s], s, w.toOp[s], step);
      case Check => CheckNeverFinishes(w, w', s);
      case Insert => InsertNeverFinishes(w, w', s);
      case SendOpenLost =>
      case ForwardLost =>
      case RemoveOwn =>
    }
  }

  lemma CheckNeverFinishes(w: World, w': World, s: StreamId)
    requires HasOp(w, s) && HandlerPcOk(w.ops[s], s) && w.ops[s].pc.Checking? && w' == CheckNext(w, s)
    ensures !HasFinished(w', s)
  {
  }

  lemma InsertNeverFinishes(w: World, w': World, s: StreamId)
    requires HasOp(w, s) && HandlerPcOk(w.ops[s], s) && w.ops[s].pc.Inserting? && w' == InsertNext(w, s)
    ensures !HasFinished(w', s)
  {
  }

  lemma RemovedIsOut(sessions: Sessions, s: StreamId)
    ensures !InSomeMap(WithoutStream(sessions, s), s)
  {
  }

  /** A stream that does not newly finish stays out if it was. */
  lemma StaysFinished(w: World, w': World, s: StreamId)
    requires FinishedIsOut(w, s) && StaysOut(w, w', s)
    requires s in w.ops && w.ops[s].started ==> w.ops[s].inserted
    requires HasFinished(w', s) ==> HasFinished(w, s)
    ensures FinishedIsOut(w', s)
  {
  }

  lemma OwnSideFinished(w: World, w': World, s: StreamId, side: OperatorSide)
    requires HasOp(w, s) && HandlerPcOk(w.ops[s], s) && OperatorSideEnabled(w, s, side)
          && w' == OperatorSideNext(w, s, side)
    requires FinishedIsOut(w, s) && StaysOut(w, w', s)
    ensures FinishedIsOut(w', s)
  {
    if IsSend(side) {
      SendNeverFinishes(w, w', s, side);
    } else if side.RemoveOwn? {
      RemovedIsOut(w.sessions, s);
    } else {
      WhatFinishes(w, w', s, side);
      StaysFinished(w, w', s);
    }
  }

  /** A step of anybody else does not touch the stream's record, or creates it. */
  lemma OthersNeverFinish(w: World, w': World, st: Step, s: StreamId)
    requires Ready(w, st) && Enabled(w, st) && w' == Next(w, st) && (st.ByOperator? ==> st.stream != s)
    ensures HasFinished(w', s) ==> HasFinished(w, s)
  {
    match st {
      case ByAgent(b, side) => SideHasEffect(w, w', b, side);
      case ByOperator(r, side) => OperatorHasEffect(w, w', r, side);
      case _ => TableNeverFinishes(w, w', st, s);
    }
  }

  lemma TableNeverFinishes(w: World, w': World, st: Step, s: StreamId)
    requires Enabled(w, st) && IsTableStep(st) && w' == Next(w, st)
    ensures HasFinished(w', s) ==> HasFinished(w, s)
  {
  }

  lemma {:induction false} RunFinished(run: seq<World>, steps: seq<Step>, i: nat, s: StreamId)
    requires IsRun(run, steps) && i < |run|
    ensures FinishedIsOut(run[i], s)
  {
    if i > 0 {
      RunFinished(run, steps, i - 1, s);
      FinishedStep(run, steps, i - 1, s);
    }
  }

  lemma FinishedStep(run: seq<World>, steps: seq<Step>, i: nat, s: StreamId)
    requires IsRun(run, steps) && i < |steps| && FinishedIsOut(run[i], s)
    ensures FinishedIsOut(run[i + 1], s)
  {
    ForwardAt(run, steps, i, 0, s);
    RunKeeps(run, steps, i);
    assert s in run[i].ops ==> OpInv(run[i], s);
    assert Follows(run, steps, i);
    InvReady(run[i], steps[i]);
    if steps[i].ByOperator? && steps[i].stream == s {
      OwnSideFinished(run[i], run[i + 1], s, steps[i].opSide);
    } else {
      OthersNeverFinish(run[i], run[i + 1], steps[i], s);
      StaysFinished(run[i], run[i + 1], s);
    }
  }

  /** A stream whose operator handler has returned is still in a map only if its `OpenStream` was never
      accepted: the early return is the one way to skip the removal. */
  lemma FinishedStreamsAreRemoved(w: World, s: StreamId)
    requires Reachable(w) && s in w.ops && w.ops[s].pc.Gone? && InSomeMap(w.sessions, s)
    ensures w.ops[s].inserted && !w.ops[s].started
  {
    var run, steps :| IsRun(run, steps) && w in run;
    var i :| 0 <= i < |run| && run[i] == w;
    RunFinished(run, steps, i, s);
    InMapIsInserted(w, s);
  }

  lemma InMapIsInserted(w: World, s: StreamId)
    requires Reachable(w) && InSomeMap(w.sessions, s)
    ensures s in w.ops && w.ops[s].inserted
  {
    ReachableInv(w);
    var sid :| sid in w.sessions && s in w.sessions[sid].streams;
    assert SessionInv(w, sid);
  }

  /* ---------- streams whose end the agent's handler has dealt with ---------- */

  predicate EndsStream(m: WireMessage, s: StreamId) {
    About(m, s) && (m.StreamClose? || m.StreamError?)
  }

  /** The agent's close or error of `s` has been taken off its websocket. */
  predicate EndTaken(ag: Agent, s: StreamId) {
    exists m :: m in ag.up.delivered && EndsStream(m, s)
  }

  /** The handler is in its loop, and is not dealing with an end of `s` right now. */
  predicate Calm(h: AgentHandler, s: StreamId) {
    match h.pc
    case Serving => true
    case LookingUp => h.hand.Some? && !EndsStream(h.hand.value, s)
    case Delivering(_) => h.hand.Some? && !EndsStream(h.hand.value, s)
    case Dropping(r) => r != s
    case _ => false
  }

  ghost predicate EndedIsOut(w: World, a: AgentId, s: StreamId) {
    HasAgent(w, a) && EndTaken(w.agents[a], s) && Calm(w.handlers[a], s) ==> !InSomeMap(w.sessions, s)
  }

  /** An end was taken only of a stream the agent was asked to open, by a handler that is attached. */
  lemma EndTakenIsOpened(w: World, a: AgentId, s: StreamId)
    requires Inv(w) && HasAgent(w, a) && EndTaken(w.agents[a], s)
    ensures w.handlers[a].attached && s in w.ops && w.ops[s].inserted
  {
    assert AgInv(w, a);
    var m :| m in w.agents[a].up.delivered && EndsStream(m, s);
    assert m in w.agents[a].up.Sent();
    OpensOfDelivered(w.toAgent[a], s);
    AskedStarted(w.ops, a, w.toAgent[a].Sent(), s);
    assert OpInv(w, s);
  }

  lemma OwnCalm(c: Conn, own: OwnStep, s: StreamId)
    requires OwnEnabled(c, own) && Calm(OwnNext(c, own).h, s) && EndTaken(OwnNext(c, own).ag, s)
    ensures Calm(c.h, s) && EndTaken(c.ag, s)
  {
    if own.Process? {
      AgentIdentity(c.ag, c.p, own.step);
    }
  }

  lemma RoutedCalm(h: AgentHandler, s: StreamId)
    requires HoldsFrame(h) && Calm(AfterRouting(h), s) && (h.pc.LookingUp? || h.pc.Delivering?)
    requires FrameOk(h.hand.value, {StreamOf(h.hand.value).value})
    ensures Calm(h, s)
  {
  }

  lemma LookUpCalm(w: World, w': World, a: AgentId, found: Option<SessionId>, s: StreamId)
    requires AgInv(w, a) && AgentSideEnabled(w, a, LookUp(found)) && w' == LookUpNext(w, a, found)
          && Calm(w'.handlers[a], s)
    ensures Calm(w.handlers[a], s)
  {
    if found.None? {
      RoutedCalm(w.handlers[a], s);
    }
  }

  /** How a handler becomes calm about `s`: it was, or it has just attached, or just dropped `s`. */
  ghost predicate WasCalm(w: World, a: AgentId, side: AgentSide, s: StreamId)
    requires HasAgent(w, a)
  {
    && EndTaken(w.agents[a], s)
    && (Calm(w.handlers[a], s) || !w.handlers[a].attached || (side.DropStream? && w.handlers[a].pc == Dropping(s)))
  }

  lemma OwnBecomesCalm(w: World, w': World, a: AgentId, own: OwnStep, c: Conn, s: StreamId)
    requires HasAgent(w, a) && OwnEnabled(ConnOf(w, a), own) && c == OwnNext(ConnOf(w, a), own)
          && w' == WithConn(w, a, c)
    requires Calm(w'.handlers[a], s) && EndTaken(w'.agents[a], s)
    ensures WasCalm(w, a, Own(own), s)
  {
    OwnCalm(ConnOf(w, a), own, s);
  }

  lemma RouteBecomesCalm(w: World, w': World, a: AgentId, side: AgentSide, s: StreamId)
    requires AgInv(w, a) && AgentSideEnabled(w, a, side) && w' == AgentSideNext(w, a, side) && IsRouting(side)
    requires a in w'.handlers && a in w'.agents && Calm(w'.handlers[a], s) && EndTaken(w'.agents[a], s)
    ensures WasCalm(w, a, side, s)
  {
    match side {
      case LookUp(found) => LookUpCalm(w, w', a, found, s);
      case Deliver => RoutedCalm(w.handlers[a], s);
      case DeliverLost =>
      case DropStream =>
    }
  }

  lemma RegisterIsNotCalm(w: World, w': World, a: AgentId, found: Option<SessionId>, hello: WireMessage, s: StreamId)
    requires HasAgent(w, a) && hello.AgentHello?
          && (found.Some? ==> found.value in w.sessions && found.value in w.births)
    requires w' == RegisterNext(w, a, hello, found)
    ensures a in w'.handlers && !Calm(w'.handlers[a], s)
  {
  }

  lemma AttachBecomesCalm(w: World, w': World, a: AgentId, sid: SessionId, s: StreamId)
    requires AgInv(w, a) && w.handlers[a].pc.Attaching? && w' == AttachNext(w, a, sid)
    requires a in w'.agents && EndTaken(w'.agents[a], s)
    ensures EndTaken(w.agents[a], s) && !w.handlers[a].attached
  {
  }

  lemma MemberBecomesCalm(w: World, w': World, a: AgentId, side: AgentSide, s: StreamId)
    requires AgInv(w, a) && AgentSideEnabled(w, a, side) && w' == AgentSideNext(w, a, side)
    requires side.Register? || side.Attach? || side.ClearAgent?
    requires a in w'.handlers && a in w'.agents && Calm(w'.handlers[a], s) && EndTaken(w'.agents[a], s)
    ensures WasCalm(w, a, side, s)
  {
    match side {
      case Register(found) => RegisterIsNotCalm(w, w', a, found, w.handlers[a].pc.hello, s);
      case Attach => AttachBecomesCalm(w, w', a, w.handlers[a].session.value, s);
      case ClearAgent =>
    }
  }

  lemma BecomesCalm(w: World, w': World, a: AgentId, side: AgentSide, s: StreamId)
    requires AgInv(w, a) && AgentSideEnabled(w, a, side) && w' == AgentSideNext(w, a, side)
    requires a in w'.handlers && a in w'.agents && Calm(w'.handlers[a], s) && EndTaken(w'.agents[a], s)
    ensures WasCalm(w, a, side, s)
  {
    if side.Own? {
      OwnBecomesCalm(w, w', a, side.own, OwnNext(ConnOf(w, a), side.own), s);
    } else if IsRouting(side) {
      RouteBecomesCalm(w, w', a, side, s);
    } else {
      MemberBecomesCalm(w, w', a, side, s);
    }
  }

  lemma SideEnded(w: World, w': World, a: AgentId, side: AgentSide, s: StreamId)
    requires Inv(w) && HasAgent(w, a) && AgentSideEnabled(w, a, side) && w' == AgentSideNext(w, a, side)
    requires EndedIsOut(w, a, s) && StaysOut(w, w', s)
    ensures EndedIsOut(w', a, s)
  {
    assert AgInv(w, a);
    if HasAgent(w', a) && EndTaken(w'.agents[a], s) && Calm(w'.handlers[a], s) {
      BecomesCalm(w, w', a, side, s);
      EndTakenIsOpened(w, a, s);
      if side.DropStream? && w.handlers[a].pc == Dropping(s) {
        RemovedIsOut(w.sessions, s);
      }
    }
  }

  /** The agent and its handler are as they were. */
  ghost predicate SameConnection(w: World, w': World, a: AgentId) {
    HasAgent(w', a) && HasAgent(w, a) ==> w'.handlers[a] == w.handlers[a] && w'.agents[a] == w.agents[a]
  }

  lemma TableConnection(w: World, w': World, st: Step, a: AgentId)
    requires Enabled(w, st) && IsTableStep(st) && w' == Next(w, st)
    ensures SameConnection(w, w', a)
    ensures HasAgent(w', a) && !HasAgent(w, a) ==> w'.handlers[a].pc.AwaitingHello?
  {
  }

  lemma OtherConnection(w: World, w': World, st: Step, a: AgentId)
    requires Ready(w, st) && Enabled(w, st) && w' == Next(w, st) && (st.ByAgent? ==> st.agent != a)
    ensures SameConnection(w, w', a)
    ensures HasAgent(w', a) && !HasAgent(w, a) ==> w'.handlers[a].pc.AwaitingHello?
  {
    match st {
      case ByAgent(b, side) => SideConnection(w, w', b, side, a);
      case ByOperator(r, side) => OpSideConnection(w, w', r, side, a);
      case _ => TableConnection(w, w', st, a);
    }
  }

  lemma SideConnection(w: World, w': World, b: AgentId, side: AgentSide, a: AgentId)
    requires Ready(w, ByAgent(b, side)) && AgentSideEnabled(w, b, side) && w' == AgentSideNext(w, b, side) && a != b
    ensures SameConnection(w, w', a) && (HasAgent(w', a) ==> HasAgent(w, a))
  {
    SideHasEffect(w, w', b, side);
  }

  lemma OpSideConnection(w: World, w': World, r: StreamId, side: OperatorSide, a: AgentId)
    requires HasOp(w, r) && HandlerPcOk(w.ops[r], r) && OperatorSideEnabled(w, r, side)
          && w' == OperatorSideNext(w, r, side)
    ensures SameConnection(w, w', a) && (HasAgent(w', a) ==> HasAgent(w, a))
  {
    OperatorHasEffect(w, w', r, side);
  }

  lemma OtherEnded(w: World, w': World, a: AgentId, s: StreamId)
    requires Inv(w) && EndedIsOut(w, a, s) && StaysOut(w, w', s) && SameConnection(w, w', a)
    requires HasAgent(w', a) && !HasAgent(w, a) ==> w'.handlers[a].pc.AwaitingHello?
    ensures EndedIsOut(w', a, s)
  {
    if HasAgent(w', a) && HasAgent(w, a) && EndTaken(w.agents[a], s) {
      EndTakenIsOpened(w, a, s);
    }
  }

  lemma EndedStep(run: seq<World>, steps: seq<Step>, i: nat, a: AgentId, s: StreamId)
    requires IsRun(run, steps) && i < |steps| && EndedIsOut(run[i], a, s)
    ensures EndedIsOut(run[i + 1], a, s)
  {
    ForwardAt(run, steps, i, 0, s);
    RunKeeps(run, steps, i);
    assert Follows(run, steps, i);
    InvReady(run[i], steps[i]);
    if steps[i].ByAgent? && steps[i].agent == a {
      SideEnded(run[i], run[i + 1], a, steps[i].side, s);
    } else {
      OtherConnection(run[i], run[i + 1], steps[i], a);
      OtherEnded(run[i], run[i + 1], a, s);
    }
  }

  lemma {:induction false} RunEnded(run: seq<World>, steps: seq<Step>, i: nat, a: AgentId, s: StreamId)
    requires IsRun(run, steps) && i < |run|
    ensures EndedIsOut(run[i], a, s)
  {
    if i > 0 {
      RunEnded(run, steps, i - 1, a, s);
      EndedStep(run, steps, i - 1, a, s);
    }
  }

  /** Once the relay has taken a stream's close or error off its agent's websocket and dealt with it, the
      stream is in no session's map: the handler never serves another frame before it is gone. */
  lemma EndedStreamsAreRemoved(w: World, a: AgentId, s: StreamId)
    requires Reachable(w) && HasAgent(w, a) && EndTaken(w.agents[a], s) && Calm(w.handlers[a], s)
    ensures !InSomeMap(w.sessions, s)
  {
    var run, steps :| IsRun(run, steps) && w in run;
    var i :| 0 <= i < |run| && run[i] == w;
    RunEnded(run, steps, i, a, s);
  }
}
