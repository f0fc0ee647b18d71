/** Removal is final: a stream that left the relay's maps never comes back, and its agent's handler
    queues at most one further message for it. */
module Removal {
  import opened Wire
  import opened OperatorStream
  import opened RelaySystem
  import opened RelayInvariant
  import opened Invariance
  import opened Evolution

  /** The step queues one of the agent's messages for stream `s`. */
  predicate Delivers(w: World, st: Step, s: StreamId) {
    st.ByAgent? && st.side.Deliver? && st.agent in w.handlers && w.handlers[st.agent].pc == Delivering(s)
  }

  /** How many messages for `s` the steps from `i` up to `j` queue. */
  function Deliveries(run: seq<World>, steps: seq<Step>, s: StreamId, i: nat, j: nat): nat
    requires |run| == |steps| + 1 && i <= j < |run|
    decreases j - i
  {
    if i == j then 0
    else Deliveries(run, steps, s, i, j - 1) + (if Delivers(run[j - 1], steps[j - 1], s) then 1 else 0)
  }

  /** 1 if the handler of the stream's agent already holds the sender of `s`. */
  function Pending(w: World, s: StreamId): nat {
    if s in w.ops && w.ops[s].agent.Some? && w.ops[s].agent.value in w.handlers
       && w.handlers[w.ops[s].agent.value].pc == Delivering(s) then 1 else 0
  }

  /** An inserted stream that is in no map. */
  ghost predicate Removed(w: World, s: StreamId) {
    s in w.ops && w.ops[s].inserted && w.ops[s].agent.Some? && !InSomeMap(w.sessions, s)
  }

  /* ---------- one step ---------- */

  lemma OwnNeverFinds(c: Conn, own: OwnStep)
    requires OwnEnabled(c, own) && OwnNext(c, own).h.pc.Delivering?
    ensures OwnNext(c, own).h == c.h
  {
  }

  lemma LookUpNeverFinds(w: World, w': World, a: AgentId, found: Option<SessionId>, s: StreamId)
    requires HasAgent(w, a) && AgentSideEnabled(w, a, LookUp(found)) && w' == LookUpNext(w, a, found)
    requires found.Some? ==> SessionInv(w, found.value)
    requires !InSomeMap(w.sessions, s)
    ensures w'.handlers[a].pc != Delivering(s)
  {
  }

  lemma OwnSideNeverFinds(w: World, w': World, a: AgentId, own: OwnStep, c: Conn, s: StreamId)
    requires HasAgent(w, a) && OwnEnabled(ConnOf(w, a), own)
    requires c == OwnNext(ConnOf(w, a), own) && w' == WithConn(w, a, c)
    ensures a in w'.handlers && (w'.handlers[a].pc == Delivering(s) ==> w.handlers[a].pc == Delivering(s))
  {
    if c.h.pc.Delivering? { OwnNeverFinds(ConnOf(w, a), own); }
  }

  lemma RegisterNeverFinds(w: World, w': World, a: AgentId, found: Option<SessionId>, hello: WireMessage)
    requires HasAgent(w, a) && hello.AgentHello?
          && (found.Some? ==> found.value in w.sessions && found.value in w.births)
    requires w' == RegisterNext(w, a, hello, found)
    ensures a in w'.handlers && !w'.handlers[a].pc.Delivering?
  {
  }

  lemma AttachNeverFinds(w: World, w': World, a: AgentId, sid: SessionId)
    requires HasAgent(w, a) && w' == AttachNext(w, a, sid)
    ensures a in w'.handlers && !w'.handlers[a].pc.Delivering?
  {
  }

  lemma SideNeverFinds(w: World, w': World, a: AgentId, side: AgentSide, s: StreamId)
    requires HasAgent(w, a) && AgentSideEnabled(w, a, side) && w' == AgentSideNext(w, a, side)
    requires side.LookUp? && side.found.Some? ==> SessionInv(w, side.found.value)
    requires !InSomeMap(w.sessions, s)
    ensures a in w'.handlers
    ensures w'.handlers[a].pc == Delivering(s) ==> w.handlers[a].pc == Delivering(s) && !side.Deliver?
  {
    match side {
      case Own(own) => OwnSideNeverFinds(w, w', a, own, OwnNext(ConnOf(w, a), own), s);
      case LookUp(found) => LookUpNeverFinds(w, w', a, found, s);
      case Register(found) => RegisterNeverFinds(w, w', a, found, w.handlers[a].pc.hello);
      case Attach => AttachNeverFinds(w, w', a, w.handlers[a].session.value);
      case Deliver =>
      case DeliverLost =>
      case DropStream =>
      case ClearAgent =>
    }
  }

  /** Only the handler of the stream's own agent can hold its sender. */
  ghost predicate OnlyOwnerHolds(w: World, b: AgentId, s: StreamId) {
    b in w.handlers && w.handlers[b].pc == Delivering(s) ==> s in w.ops && w.ops[s].agent == Some(b)
  }

  lemma OwnerHolds(w: World, b: AgentId, s: StreamId)
    requires Inv(w)
    ensures OnlyOwnerHolds(w, b, s)
  {
    if b in w.handlers && w.handlers[b].pc == Delivering(s) {
      assert AgInv(w, b);
      AskedStarted(w.ops, b, w.toAgent[b].Sent(), s);
    }
  }

  /** Handler `b` moved, without newly holding the sender of `s`; if it held it and `delivered`, not any more. */
  lemma PendingAfterSide(w: World, w': World, b: AgentId, s: StreamId, delivered: bool)
    requires SideEffect(w, w', b) && HasLink(w, s) && OnlyOwnerHolds(w, b, s)
    requires w'.handlers[b].pc == Delivering(s) ==> w.handlers[b].pc == Delivering(s) && !delivered
    requires delivered ==> w.handlers[b].pc == Delivering(s)
    ensures Pending(w', s) + (if delivered then 1 else 0) <= Pending(w, s)
  {
  }

  ghost predicate HasLink(w: World, s: StreamId) {
    s in w.ops && w.ops[s].agent.Some? && HasAgent(w, w.ops[s].agent.value)
  }

  lemma SidePending(w: World, w': World, b: AgentId, side: AgentSide, s: StreamId)
    requires Ready(w, ByAgent(b, side)) && AgentSideEnabled(w, b, side) && w' == AgentSideNext(w, b, side)
    requires side.LookUp? && side.found.Some? ==> SessionInv(w, side.found.value)
    requires HasLink(w, s) && !InSomeMap(w.sessions, s) && OnlyOwnerHolds(w, b, s)
    ensures Pending(w', s) + (if Delivers(w, ByAgent(b, side), s) then 1 else 0) <= Pending(w, s)
  {
    SideHasEffect(w, w', b, side);
    SideNeverFinds(w, w', b, side, s);
    PendingAfterSide(w, w', b, s, Delivers(w, ByAgent(b, side), s));
  }

  /** No handler moves. */
  ghost predicate HandlersStay(w: World, w': World) {
    forall a :: a in w.handlers ==> a in w'.handlers && w'.handlers[a] == w.handlers[a]
  }

  lemma TableHandlersStay(w: World, w': World, st: Step)
    requires Enabled(w, st) && IsTableStep(st) && w' == Next(w, st)
    ensures HandlersStay(w, w')
  {
  }

  lemma OperatorHandlersStay(w: World, w': World, r: StreamId, side: OperatorSide)
    requires HasOp(w, r) && HandlerPcOk(w.ops[r], r) && OperatorSideEnabled(w, r, side)
          && w' == OperatorSideNext(w, r, side)
    ensures HandlersStay(w, w')
  {
    OperatorHasEffect(w, w', r, side);
  }

  lemma PendingStays(w: World, w': World, s: StreamId)
    requires HasLink(w, s) && HandlersStay(w, w') && OpMoves(w, w', s)
    ensures Pending(w', s) <= Pending(w, s)
  {
  }

  lemma OtherPending(w: World, w': World, st: Step, s: StreamId)
    requires Ready(w, st) && Enabled(w, st) && w' == Next(w, st) && !st.ByAgent?
    requires HasLink(w, s) && OpMoves(w, w', s)
    ensures Pending(w', s) <= Pending(w, s)
  {
    match st {
      case ByOperator(r, side) => OperatorHandlersStay(w, w', r, side);
      case _ => TableHandlersStay(w, w', st);
    }
    PendingStays(w, w', s);
  }

  /* ---------- whole runs ---------- */

  lemma RemovedLinked(w: World, s: StreamId)
    requires Inv(w) && s in w.ops && w.ops[s].inserted
    ensures HasLink(w, s)
  {
    assert OpInv(w, s);
  }

  lemma PendingAt(run: seq<World>, steps: seq<Step>, i: nat, s: StreamId)
    requires IsRun(run, steps) && i < |steps| && Removed(run[i], s)
    ensures Pending(run[i + 1], s) + (if Delivers(run[i], steps[i], s) then 1 else 0) <= Pending(run[i], s)
  {
    RunKeeps(run, steps, i);
    RemovedLinked(run[i], s);
    assert Follows(run, steps, i);
    InvReady(run[i], steps[i]);
    if steps[i].ByAgent? {
      OwnerHolds(run[i], steps[i].agent, s);
      FoundSession(run[i], steps[i].side);
      SidePending(run[i], run[i + 1], steps[i].agent, steps[i].side, s);
    } else {
      StepForward(run[i], run[i + 1], steps[i], 0, s);
      OtherPending(run[i], run[i + 1], steps[i], s);
    }
  }

  lemma FoundSession(w: World, side: AgentSide)
    requires Inv(w)
    ensures side.LookUp? && side.found.Some? && side.found.value in w.sessions ==> SessionInv(w, side.found.value)
  {
  }

  /** A stream that left the maps is in none of them at any later time. */
  lemma RemovalIsFinal(run: seq<World>, steps: seq<Step>, i: nat, j: nat, s: StreamId)
    requires IsRun(run, steps) && i <= j < |run| && Removed(run[i], s)
    ensures Removed(run[j], s)
  {
    RunForward(run, steps, i, j, 0, s);
  }

  /** After its removal at most one more message of a stream is queued to its operator: the one whose
      sender the handler had already looked up. */
  lemma {:induction false} AtMostOneLateDelivery(run: seq<World>, steps: seq<Step>, i: nat, j: nat, s: StreamId)
    requires IsRun(run, steps) && i <= j < |run| && Removed(run[i], s)
    ensures Deliveries(run, steps, s, i, j) + Pending(run[j], s) <= Pending(run[i], s) <= 1
    decreases j - i
  {
    if i < j {
      AtMostOneLateDelivery(run, steps, i, j - 1, s);
      RemovalIsFinal(run, steps, i, j - 1, s);
      PendingAt(run, steps, j - 1, s);
    }
  }
}
