/** What ever enters the channel to an operator: the agent's own messages for the stream, and at most one
    notice the relay makes itself, that the agent is gone or that the session was ended. */
module Notices {
  import opened Wire
  import opened Pipes
  import opened OperatorStream
  import opened RelayRules
  import opened RelaySystem
  import opened RelayInvariant
  import opened Invariance
  import opened Evolution
  import Removal

  ghost predicate InSomeCloser(closers: map<SessionId, Closer>, s: StreamId) {
    exists sid :: sid in closers && s in closers[sid].streams
  }

  predicate HasRoom(w: World, s: StreamId) {
    s in w.toOp && w.toOp[s].chan.CanSend()
  }

  /** The step makes the channel of `s` accept a notice that the agent is gone. */
  predicate TellsGone(w: World, st: Step, s: StreamId) {
    && st.ByAgent? && st.side.ClearAgent? && st.agent in w.handlers && w.handlers[st.agent].session.Some?
    && w.handlers[st.agent].session.value in w.sessions
    && s in w.sessions[w.handlers[st.agent].session.value].streams && HasRoom(w, s)
  }

  /** The step makes the channel of `s` accept a notice that the session was ended. */
  predicate TellsEnded(w: World, st: Step, s: StreamId) {
    && st.TellStreamClosed? && st.stream == s
    && st.sid in w.closers && s in w.closers[st.sid].streams && HasRoom(w, s)
  }

  predicate IsNotice(w: World, st: Step, s: StreamId) {
    TellsGone(w, st, s) || TellsEnded(w, st, s)
  }

  /** How many notices the channel of `s` accepts in the steps from `i` up to `j`. */
  function Notices(run: seq<World>, steps: seq<Step>, s: StreamId, i: nat, j: nat): nat
    requires |run| == |steps| + 1 && i <= j < |run|
    decreases j - i
  {
    if i == j then 0
    else Notices(run, steps, s, i, j - 1) + (if IsNotice(run[j - 1], steps[j - 1], s) then 1 else 0)
  }

  /** A stream that has been in a map and is neither in one nor being notified has its notice behind it. */
  ghost predicate Spent(w: World, s: StreamId) {
    s in w.ops && w.ops[s].inserted && !InSomeMap(w.sessions, s) && !InSomeCloser(w.closers, s)
  }

  /* ---------- a notice is the last ---------- */

  /** The only session whose map or closer can hold `s` is its own. */
  ghost predicate OwnOnly(w: World, s: StreamId) {
    && (forall sid :: sid in w.sessions && s in w.sessions[sid].streams ==>
          s in w.ops && w.ops[s].inserted && w.ops[s].session == sid && w.sessions[sid].streams[s] == s)
    && (forall sid :: sid in w.closers && s in w.closers[sid].streams ==>
          s in w.ops && w.ops[s].inserted && w.ops[s].session == sid && w.closers[sid].streams[s] == s)
    && (forall sid :: sid in w.closers ==> sid !in w.sessions)
  }

  lemma InvOwnOnly(w: World, s: StreamId)
    requires SessInv(w)
    ensures OwnOnly(w, s)
  {
    forall sid | sid in w.sessions && s in w.sessions[sid].streams
      ensures s in w.ops && w.ops[s].inserted && w.ops[s].session == sid && w.sessions[sid].streams[s] == s
    {
      assert SessionInv(w, sid);
    }
    forall sid | sid in w.closers
      ensures sid !in w.sessions
      ensures s in w.closers[sid].streams ==>
                s in w.ops && w.ops[s].inserted && w.ops[s].session == sid && w.closers[sid].streams[s] == s
    {
      assert CloserInv(w, sid);
    }
  }

  lemma ClearSpends(w: World, w': World, a: AgentId, sid: SessionId, s: StreamId)
    requires HasAgent(w, a) && w' == ClearNext(w, a, sid) && OwnOnly(w, s)
    requires sid in w.sessions && s in w.sessions[sid].streams
    ensures Spent(w', s)
  {
  }

  lemma TellSpends(w: World, w': World, sid: SessionId, s: StreamId)
    requires Enabled(w, TellStreamClosed(sid, s)) && w' == Next(w, TellStreamClosed(sid, s)) && OwnOnly(w, s)
    ensures Spent(w', s)
  {
  }

  /** After a notice the stream is spent. */
  lemma NoticeSpends(w: World, w': World, st: Step, s: StreamId)
    requires Enabled(w, st) && w' == Next(w, st) && OwnOnly(w, s) && IsNotice(w, st, s)
    ensures Spent(w', s) && !Spent(w, s)
  {
    if TellsGone(w, st, s) {
      ClearSpends(w, w', st.agent, w.handlers[st.agent].session.value, s);
    } else {
      TellSpends(w, w', st.sid, s);
    }
  }

  lemma TableClosers(w: World, w': World, st: Step, s: StreamId)
    requires Enabled(w, st) && IsTableStep(st) && w' == Next(w, st)
    requires !InSomeMap(w.sessions, s) && !InSomeCloser(w.closers, s)
    ensures !InSomeCloser(w'.closers, s)
  {
    match st {
      case EndSession(sid) => assert s !in w.sessions[sid].streams;
      case TellAgentClosed(_) =>
      case TellStreamClosed(_, _) =>
      case _ =>
    }
  }

  lemma StepClosers(w: World, w': World, st: Step, s: StreamId)
    requires Ready(w, st) && Enabled(w, st) && w' == Next(w, st)
    requires !InSomeMap(w.sessions, s) && !InSomeCloser(w.closers, s)
    ensures !InSomeCloser(w'.closers, s)
  {
    match st {
      case ByAgent(b, side) => SideHasEffect(w, w', b, side);
      case ByOperator(r, side) => OperatorHasEffect(w, w', r, side);
      case _ => TableClosers(w, w', st, s);
    }
  }

  /** A spent stream stays spent. */
  lemma SpentAt(run: seq<World>, steps: seq<Step>, i: nat, s: StreamId)
    requires IsRun(run, steps) && i < |steps| && Spent(run[i], s)
    ensures Spent(run[i + 1], s)
  {
    RunForward(run, steps, i, i + 1, 0, s);
    RunKeeps(run, steps, i);
    assert Follows(run, steps, i);
    InvReady(run[i], steps[i]);
    StepClosers(run[i], run[i + 1], steps[i], s);
  }

  lemma NoticeAt(run: seq<World>, steps: seq<Step>, i: nat, s: StreamId)
    requires IsRun(run, steps) && i < |steps| && IsNotice(run[i], steps[i], s)
    ensures Spent(run[i + 1], s) && !Spent(run[i], s)
  {
    RunKeeps(run, steps, i);
    InvOwnOnly(run[i], s);
    assert Follows(run, steps, i);
    NoticeSpends(run[i], run[i + 1], steps[i], s);
  }

  /** Over a whole run the channel of a stream accepts at most one notice, and none once it is spent. */
  lemma {:induction false} AtMostOneNotice(run: seq<World>, steps: seq<Step>, i: nat, j: nat, s: StreamId)
    requires IsRun(run, steps) && i <= j < |run|
    ensures Notices(run, steps, s, i, j) <= 1
    ensures Notices(run, steps, s, i, j) == 1 ==> Spent(run[j], s) && !Spent(run[i], s)
    ensures Spent(run[i], s) ==> Spent(run[j], s)
    decreases j - i
  {
    if i < j {
      AtMostOneNotice(run, steps, i, j - 1, s);
      if Spent(run[j - 1], s) { SpentAt(run, steps, j - 1, s); }
      if IsNotice(run[j - 1], steps[j - 1], s) { NoticeAt(run, steps, j - 1, s); }
    }
  }

  /* ---------- everything a step appends ---------- */

  /** The agent's message that a delivering step hands to the channel of `s`. */
  function Delivered(w: World, st: Step, s: StreamId): seq<WireMessage> {
    if Removal.Delivers(w, st, s) && w.handlers[st.agent].hand.Some? then [w.handlers[st.agent].hand.value] else []
  }

  function Appended(w: World, st: Step, s: StreamId): seq<WireMessage> {
    if TellsGone(w, st, s) then [StreamError(s, AGENT_DISCONNECTED)]
    else if TellsEnded(w, st, s) then [StreamError(s, SESSION_ENDED)]
    else Delivered(w, st, s)
  }

  /** The channel of `s` went on from `w` by exactly `more`. */
  ghost predicate OutGrows(w: World, w': World, s: StreamId, more: seq<WireMessage>) {
    s in w.toOp && s in w'.toOp && w'.toOp[s].Sent() == w.toOp[s].Sent() + more
  }

  lemma SameOut(w: World, w': World, s: StreamId)
    requires s in w.toOp && w'.toOp == w.toOp
    ensures OutGrows(w, w', s, [])
  {
    assert w.toOp[s].Sent() + [] == w.toOp[s].Sent();
  }

  lemma ClearOut(w: World, w': World, b: AgentId, sid: SessionId, s: StreamId)
    requires HasAgent(w, b) && AgentSideEnabled(w, b, ClearAgent) && w.handlers[b].session == Some(sid)
    requires w' == ClearNext(w, b, sid) && s in w.toOp
    ensures OutGrows(w, w', s, Appended(w, ByAgent(b, ClearAgent), s))
  {
    if sid in w.sessions {
      TrySendAppendsOrDrops(w.toOp[s], StreamError(s, AGENT_DISCONNECTED));
      assert w.toOp[s].Sent() + [] == w.toOp[s].Sent();
    } else {
      SameOut(w, w', s);
    }
  }

  lemma DeliverOut(w: World, w': World, b: AgentId, s: StreamId)
    requires HasAgent(w, b) && AgentSideEnabled(w, b, Deliver) && w' == AgentSideNext(w, b, Deliver) && s in w.toOp
    ensures OutGrows(w, w', s, Appended(w, ByAgent(b, Deliver), s))
  {
    var h := w.handlers[b];
    SendAppends(w.toOp[h.pc.peer], h.hand.value);
    assert w.toOp[s].Sent() + [] == w.toOp[s].Sent();
  }

  lemma AttachOut(w: World, w': World, b: AgentId, sid: SessionId)
    requires HasAgent(w, b) && w' == AttachNext(w, b, sid)
    ensures w'.toOp == w.toOp
  {
  }

  lemma RegisterOut(w: World, w': World, b: AgentId, found: Option<SessionId>, hello: WireMessage)
    requires HasAgent(w, b) && hello.AgentHello?
          && (found.Some? ==> found.value in w.sessions && found.value in w.births)
    requires w' == RegisterNext(w, b, hello, found)
    ensures w'.toOp == w.toOp
  {
  }

  lemma SideOut(w: World, w': World, b: AgentId, side: AgentSide, s: StreamId)
    requires HasAgent(w, b) && AgentSideEnabled(w, b, side) && w' == AgentSideNext(w, b, side) && s in w.toOp
    ensures OutGrows(w, w', s, Appended(w, ByAgent(b, side), s))
  {
    match side {
      case ClearAgent => ClearOut(w, w', b, w.handlers[b].session.value, s);
      case Deliver => DeliverOut(w, w', b, s);
      case Register(found) =>
        RegisterOut(w, w', b, found, w.handlers[b].pc.hello);
        SameOut(w, w', s);
      case Attach =>
        AttachOut(w, w', b, w.handlers[b].session.value);
        SameOut(w, w', s);
      case Own(_) => SameOut(w, w', s);
      case LookUp(_) => SameOut(w, w', s);
      case DeliverLost => SameOut(w, w', s);
      case DropStream => SameOut(w, w', s);
    }
  }

  lemma LocalOut(out: Pipe, op: Operator, step: OperatorStep)
    requires OperatorEnabled(op, out, step)
    ensures OutAfter(out, step).Sent() == out.Sent()
  {
    match step {
      case BridgeReceive => ReceiveKeepsSent(out);
      case OutMove(v) => MoveKeepsSent(out, v);
      case AbortOutbound(_) => MoveKeepsSent(out, StopMove);
      case _ =>
    }
  }

  lemma StartStopOut(out: Pipe)
    ensures out.Start().Sent() == out.Sent() && out.Stop().Sent() == out.Sent()
  {
  }

  lemma CheckOut(w: World, w': World, s: StreamId)
    requires HasOp(w, s) && w' == CheckNext(w, s)
    ensures w'.toOp == w.toOp
  {
  }

  lemma InsertOut(w: World, w': World, s: StreamId)
    requires HasOp(w, s) && w' == InsertNext(w, s)
    ensures s in w'.toOp && w'.toOp[s].Sent() == w.toOp[s].Sent()
  {
    StartStopOut(w.toOp[s]);
  }

  lemma SendOut(w: World, w': World, s: StreamId, side: OperatorSide)
    requires HasOp(w, s) && OperatorSideEnabled(w, s, side) && w' == OperatorSideNext(w, s, side) && IsSend(side)
    ensures s in w'.toOp && w'.toOp[s].Sent() == w.toOp[s].Sent()
  {
    StartStopOut(w.toOp[s]);
    match side {
      case SendOpen =>
      case Forward =>
      case TellAgentDone =>
    }
  }

  lemma OwnOpOut(w: World, w': World, s: StreamId, side: OperatorSide)
    requires HasOp(w, s) && OperatorSideEnabled(w, s, side) && w' == OperatorSideNext(w, s, side)
    ensures s in w'.toOp && w'.toOp[s].Sent() == w.toOp[s].Sent()
  {
    if IsSend(side) {
      SendOut(w, w', s, side);
    } else {
      match side {
        case Local(step) => LocalOut(w.toOp[s], w.ops[s], step);
        case Check => CheckOut(w, w', s);
        case Insert => InsertOut(w, w', s);
        case SendOpenLost => StartStopOut(w.toOp[s]);
        case ForwardLost =>
        case RemoveOwn =>
      }
    }
  }

  lemma OtherOpOut(w: World, w': World, r: StreamId, side: OperatorSide, s: StreamId)
    requires HasOp(w, r) && HandlerPcOk(w.ops[r], r) && OperatorSideEnabled(w, r, side)
    requires w' == OperatorSideNext(w, r, side) && s in w.toOp && r != s
    ensures s in w'.toOp && w'.toOp[s] == w.toOp[s]
  {
    OperatorHasEffect(w, w', r, side);
  }

  lemma OperatorOut(w: World, w': World, r: StreamId, side: OperatorSide, s: StreamId)
    requires HasOp(w, r) && HandlerPcOk(w.ops[r], r) && OperatorSideEnabled(w, r, side)
    requires w' == OperatorSideNext(w, r, side) && s in w.toOp
    ensures OutGrows(w, w', s, [])
  {
    if r == s { OwnOpOut(w, w', s, side); } else { OtherOpOut(w, w', r, side, s); }
    assert w.toOp[s].Sent() + [] == w.toOp[s].Sent();
  }

  lemma TellOut(w: World, w': World, sid: SessionId, r: StreamId, s: StreamId)
    requires Enabled(w, TellStreamClosed(sid, r)) && w' == Next(w, TellStreamClosed(sid, r)) && s in w.toOp
          && OwnOnly(w, r)
    ensures OutGrows(w, w', s, Appended(w, TellStreamClosed(sid, r), s))
  {
    TrySendAppendsOrDrops(w.toOp[r], StreamError(r, SESSION_ENDED));
    assert w.toOp[s].Sent() + [] == w.toOp[s].Sent();
  }

  lemma TableOut(w: World, w': World, st: Step, s: StreamId)
    requires Enabled(w, st) && IsTableStep(st) && w' == Next(w, st) && !st.TellStreamClosed? && s in w.toOp
    requires w.nextStream !in w.toOp
    ensures s in w'.toOp && w'.toOp[s] == w.toOp[s]
  {
  }

  lemma TableStepOut(w: World, w': World, st: Step, s: StreamId)
    requires Enabled(w, st) && IsTableStep(st) && w' == Next(w, st) && s in w.toOp && w.nextStream !in w.toOp
    requires st.TellStreamClosed? ==> OwnOnly(w, st.stream)
    ensures OutGrows(w, w', s, Appended(w, st, s))
  {
    if st.TellStreamClosed? {
      TellOut(w, w', st.sid, st.stream, s);
    } else {
      TableOut(w, w', st, s);
      assert w.toOp[s].Sent() + [] == w.toOp[s].Sent();
    }
  }

  /** A step appends to the channel of `s` its notice, the message it delivers, or nothing. */
  lemma StepOut(w: World, w': World, st: Step, s: StreamId)
    requires Ready(w, st) && Enabled(w, st) && w' == Next(w, st) && s in w.toOp && w.nextStream !in w.toOp
    requires st.TellStreamClosed? ==> OwnOnly(w, st.stream)
    ensures OutGrows(w, w', s, Appended(w, st, s))
  {
    match st {
      case ByAgent(b, side) => SideOut(w, w', b, side, s);
      case ByOperator(r, side) => OperatorOut(w, w', r, side, s);
      case _ => TableStepOut(w, w', st, s);
    }
  }

  /** What the steps from `i` up to `j` append. */
  function AppendedBetween(run: seq<World>, steps: seq<Step>, s: StreamId, i: nat, j: nat): seq<WireMessage>
    requires |run| == |steps| + 1 && i <= j < |run|
    decreases j - i
  {
    if i == j then [] else AppendedBetween(run, steps, s, i, j - 1) + Appended(run[j - 1], steps[j - 1], s)
  }

  lemma OutAt(run: seq<World>, steps: seq<Step>, i: nat, s: StreamId)
    requires IsRun(run, steps) && i < |steps| && s in run[i].toOp
    ensures OutGrows(run[i], run[i + 1], s, Appended(run[i], steps[i], s))
  {
    RunKeeps(run, steps, i);
    if steps[i].TellStreamClosed? { InvOwnOnly(run[i], steps[i].stream); }
    JoinSteps.NextStreamIsFresh(run[i]);
    assert Follows(run, steps, i);
    InvReady(run[i], steps[i]);
    StepOut(run[i], run[i + 1], steps[i], s);
  }

  /** Everything ever accepted for an operator between two states of a run is, in order, the messages its
      agent's handler delivered for that stream, and the relay's notice, of which there is at most one. */
  lemma {:induction false} OutputIsDeliveriesAndOneNotice(run: seq<World>, steps: seq<Step>, i: nat, j: nat,
          s: StreamId)
    requires IsRun(run, steps) && i <= j < |run| && s in run[i].toOp
    ensures OutGrows(run[i], run[j], s, AppendedBetween(run, steps, s, i, j))
    ensures Notices(run, steps, s, i, j) <= 1
    decreases j - i
  {
    AtMostOneNotice(run, steps, i, j, s);
    if i < j {
      OutputIsDeliveriesAndOneNotice(run, steps, i, j - 1, s);
      OutAt(run, steps, j - 1, s);
      var a, b := AppendedBetween(run, steps, s, i, j - 1), Appended(run[j - 1], steps[j - 1], s);
      assert (run[i].toOp[s].Sent() + a) + b == run[i].toOp[s].Sent() + (a + b);
    } else {
      assert run[i].toOp[s].Sent() + [] == run[i].toOp[s].Sent();
    }
  }

  /* ---------- everybody an ended session owes a notice ---------- */

  /** The ended session has still to tell the stream's operator. */
  predicate OwesStream(w: World, sid: SessionId, s: StreamId) {
    sid in w.closers && s in w.closers[sid].streams
  }

  /** It has still to tell its agent. */
  predicate OwesAgent(w: World, sid: SessionId, a: AgentId) {
    sid in w.closers && w.closers[sid].agent == Some(a)
  }

  lemma EndOwes(w: World, w': World, sid: SessionId)
    requires Enabled(w, EndSession(sid)) && w' == Next(w, EndSession(sid))
    ensures forall s :: s in w.sessions[sid].streams ==> OwesStream(w', sid, s)
    ensures w.sessions[sid].agent.Some? ==> OwesAgent(w', sid, w.sessions[sid].agent.value)
  {
  }

  lemma TableOwes(w: World, w': World, st: Step, sid: SessionId)
    requires Enabled(w, st) && IsTableStep(st) && w' == Next(w, st) && sid in w.closers && sid !in w.sessions
    ensures sid in w'.closers
    ensures st != TellAgentClosed(sid) ==> w'.closers[sid].agent == w.closers[sid].agent
    ensures forall s :: s in w.closers[sid].streams && st != TellStreamClosed(sid, s) ==> s in w'.closers[sid].streams
  {
  }

  lemma PeersKeepClosers(w: World, w': World, st: Step)
    requires Ready(w, st) && Enabled(w, st) && w' == Next(w, st) && !IsTableStep(st)
    ensures w'.closers == w.closers
  {
    match st {
      case ByAgent(b, side) => SideHasEffect(w, w', b, side);
      case ByOperator(r, side) => OperatorHasEffect(w, w', r, side);
    }
  }

  /** A debt is only paid by telling. */
  lemma StepOwes(w: World, w': World, st: Step, sid: SessionId)
    requires Ready(w, st) && Enabled(w, st) && w' == Next(w, st) && sid in w.closers && sid !in w.sessions
    ensures sid in w'.closers
    ensures st != TellAgentClosed(sid) ==> w'.closers[sid].agent == w.closers[sid].agent
    ensures forall s :: s in w.closers[sid].streams && st != TellStreamClosed(sid, s) ==> s in w'.closers[sid].streams
  {
    if IsTableStep(st) {
      TableOwes(w, w', st, sid);
    } else {
      PeersKeepClosers(w, w', st);
    }
  }

  lemma CloserIsEnded(run: seq<World>, steps: seq<Step>, i: nat, sid: SessionId)
    requires IsRun(run, steps) && i < |run| && sid in run[i].closers
    ensures sid !in run[i].sessions
  {
    RunKeeps(run, steps, i);
    assert CloserInv(run[i], sid);
  }

  lemma OwesAt(run: seq<World>, steps: seq<Step>, i: nat, sid: SessionId)
    requires IsRun(run, steps) && i < |steps| && sid in run[i].closers
    ensures sid in run[i + 1].closers
    ensures steps[i] != TellAgentClosed(sid) ==> run[i + 1].closers[sid].agent == run[i].closers[sid].agent
    ensures forall s :: s in run[i].closers[sid].streams && steps[i] != TellStreamClosed(sid, s) ==>
              s in run[i + 1].closers[sid].streams
  {
    CloserIsEnded(run, steps, i, sid);
    ReadyAt(run, steps, i);
    StepOwes(run[i], run[i + 1], steps[i], sid);
  }

  /** The stream's operator was told in step `k`: its channel accepted the notice if it had room. */
  ghost predicate StreamTold(run: seq<World>, steps: seq<Step>, k: nat, sid: SessionId, s: StreamId)
    requires |run| == |steps| + 1 && k < |steps|
  {
    && steps[k] == TellStreamClosed(sid, s) && s in run[k].toOp
    && (HasRoom(run[k], s) ==> OutGrows(run[k], run[k + 1], s, [StreamError(s, SESSION_ENDED)]))
  }

  lemma TellStreamAccepts(w: World, w': World, sid: SessionId, s: StreamId)
    requires Enabled(w, TellStreamClosed(sid, s)) && w' == Next(w, TellStreamClosed(sid, s)) && OwnOnly(w, s)
    ensures s in w.toOp
    ensures HasRoom(w, s) ==> OutGrows(w, w', s, [StreamError(s, SESSION_ENDED)])
  {
    TellOut(w, w', sid, s, s);
  }

  lemma OwnOnlyAt(run: seq<World>, steps: seq<Step>, k: nat, s: StreamId)
    requires IsRun(run, steps) && k < |run|
    ensures OwnOnly(run[k], s)
  {
    RunKeeps(run, steps, k);
    InvOwnOnly(run[k], s);
  }

  lemma StreamToldNow(run: seq<World>, steps: seq<Step>, k: nat, sid: SessionId, s: StreamId)
    requires IsRun(run, steps) && k < |steps| && steps[k] == TellStreamClosed(sid, s)
    ensures StreamTold(run, steps, k, sid, s)
  {
    OwnOnlyAt(run, steps, k, s);
    assert Follows(run, steps, k);
    TellStreamAccepts(run[k], run[k + 1], sid, s);
  }

  /** The agent was told in step `k`: its channel accepted the notice if it had room. */
  ghost predicate AgentTold(run: seq<World>, steps: seq<Step>, k: nat, sid: SessionId, a: AgentId)
    requires |run| == |steps| + 1 && k < |steps|
  {
    && steps[k] == TellAgentClosed(sid) && a in run[k].toAgent && a in run[k + 1].toAgent
    && (run[k].toAgent[a].chan.CanSend() ==>
          run[k + 1].toAgent[a].Sent() == run[k].toAgent[a].Sent() + [Error(SESSION_ENDED)])
  }

  lemma TellAgentAccepts(w: World, w': World, sid: SessionId, a: AgentId)
    requires Enabled(w, TellAgentClosed(sid)) && w' == Next(w, TellAgentClosed(sid)) && OwesAgent(w, sid, a)
    ensures a in w.toAgent && a in w'.toAgent
    ensures w.toAgent[a].chan.CanSend() ==> w'.toAgent[a].Sent() == w.toAgent[a].Sent() + [Error(SESSION_ENDED)]
  {
    TrySendAppendsOrDrops(w.toAgent[a], Error(SESSION_ENDED));
  }

  lemma AgentToldNow(run: seq<World>, steps: seq<Step>, k: nat, sid: SessionId, a: AgentId)
    requires IsRun(run, steps) && k < |steps| && steps[k] == TellAgentClosed(sid) && OwesAgent(run[k], sid, a)
    ensures AgentTold(run, steps, k, sid, a)
  {
    assert Follows(run, steps, k);
    TellAgentAccepts(run[k], run[k + 1], sid, a);
  }

  /** Over any run, after a session was ended each stream its map held is still to be told, or was: its channel
      accepted the notice unless it was full or closed in the very step that tried. */
  lemma {:induction false} EndedSessionsTellStreams(run: seq<World>, steps: seq<Step>, i: nat, j: nat, sid: SessionId,
                                                    s: StreamId)
    requires IsRun(run, steps) && i < j < |run| && steps[i] == EndSession(sid)
    requires sid in run[i].sessions && s in run[i].sessions[sid].streams
    ensures sid in run[j].closers
    ensures OwesStream(run[j], sid, s) || exists k :: i < k < j && StreamTold(run, steps, k, sid, s)
    decreases j
  {
    if i + 1 == j {
      assert Follows(run, steps, i);
      EndOwes(run[i], run[j], sid);
    } else {
      EndedSessionsTellStreams(run, steps, i, j - 1, sid, s);
      OwesAt(run, steps, j - 1, sid);
      if steps[j - 1] == TellStreamClosed(sid, s) { StreamToldNow(run, steps, j - 1, sid, s); }
    }
  }

  /** So is the agent that was attached to it. */
  lemma {:induction false} EndedSessionsTellTheirAgent(run: seq<World>, steps: seq<Step>, i: nat, j: nat,
                                                       sid: SessionId, a: AgentId)
    requires IsRun(run, steps) && i < j < |run| && steps[i] == EndSession(sid)
    requires sid in run[i].sessions && run[i].sessions[sid].agent == Some(a)
    ensures sid in run[j].closers
    ensures OwesAgent(run[j], sid, a) || exists k :: i < k < j && AgentTold(run, steps, k, sid, a)
    decreases j
  {
    if i + 1 == j {
      assert Follows(run, steps, i);
      EndOwes(run[i], run[j], sid);
    } else {
      EndedSessionsTellTheirAgent(run, steps, i, j - 1, sid, a);
      OwesAt(run, steps, j - 1, sid);
      if steps[j - 1] == TellAgentClosed(sid) && OwesAgent(run[j - 1], sid, a) {
        AgentToldNow(run, steps, j - 1, sid, a);
      }
    }
  }
}
