/** Why a stream is not in its session's map: each of the three removals has its cause, and while the agent's
    handler is in its loop they say exactly which streams are in the map. */
module Membership {
  import opened Wire
  import opened AgentProcess
  import opened OperatorStream
  import opened RelaySystem
  import opened RelayInvariant
  import opened Invariance
  import opened Evolution
  import opened Delivery
  import opened Cleanup
  import opened Leaks
  import opened Frames
  import opened Voices

  /* ---------- ends that were taken ---------- */

  lemma OwnTaken(w: World, w': World, a: AgentId, own: OwnStep, c: Conn)
    requires HasAgent(w, a) && OwnEnabled(ConnOf(w, a), own)
    requires c == OwnNext(ConnOf(w, a), own) && w' == WithConn(w, a, c)
    ensures HasAgent(w', a) && w.agents[a].up.delivered <= w'.agents[a].up.delivered
  {
    if own.Process? { AgentIdentity(w.agents[a], w.toAgent[a], own.step); }
  }

  /** What was taken off an agent's websocket stays taken. */
  lemma TakenStays(w: World, w': World, st: Step, a: AgentId)
    requires Ready(w, st) && Enabled(w, st) && w' == Next(w, st) && HasAgent(w, a)
    ensures HasAgent(w', a) && w.agents[a].up.delivered <= w'.agents[a].up.delivered
  {
    if IsOwn(st, a) {
      OwnTaken(w, w', a, st.side.own, OwnNext(ConnOf(w, a), st.side.own));
    } else {
      StepUnheard(w, w', st, a);
    }
  }

  /** The frame in hand was taken. */
  ghost predicate HandTaken(w: World, a: AgentId) {
    HasAgent(w, a) && w.handlers[a].hand.Some? ==> w.handlers[a].hand.value in w.agents[a].up.delivered
  }

  /** A stream is dropped only after an end of it was taken. */
  ghost predicate DropsEnded(w: World, a: AgentId, s: StreamId) {
    HasAgent(w, a) && w.handlers[a].pc == Dropping(s) ==> EndTaken(w.agents[a], s)
  }

  lemma HandAt(run: seq<World>, steps: seq<Step>, j: nat, a: AgentId)
    requires IsRun(run, steps) && j < |run|
    ensures HandTaken(run[j], a)
  {
    if HasAgent(run[j], a) && run[j].handlers[a].hand.Some? {
      RunKeeps(run, steps, j);
      HandIsFrame(run[j], a);
      var m := run[j].handlers[a].hand.value;
      var s := StreamOf(m).value;
      RunRouted(run, steps, j, a, s);
      OnStreamMember(run[j].agents[a].up.delivered, m, s);
    }
  }

  lemma HandIsFrame(w: World, a: AgentId)
    requires Inv(w) && HasAgent(w, a) && w.handlers[a].hand.Some?
    ensures StreamOf(w.handlers[a].hand.value).Some? && !w.handlers[a].hand.value.OpenStream?
  {
    assert AgInv(w, a);
  }

  lemma OwnDrops(c: Conn, own: OwnStep, s: StreamId)
    requires OwnEnabled(c, own) && OwnNext(c, own).h.pc == Dropping(s)
    ensures c.h.pc == Dropping(s)
  {
  }

  lemma RouteDrops(h: AgentHandler, s: StreamId)
    requires HoldsFrame(h) && AfterRouting(h).pc == Dropping(s) && !h.hand.value.OpenStream?
    ensures EndsStream(h.hand.value, s)
  {
  }

  lemma RegisterDrops(w: World, w': World, a: AgentId, found: Option<SessionId>, hello: WireMessage)
    requires HasAgent(w, a) && hello.AgentHello?
          && (found.Some? ==> found.value in w.sessions && found.value in w.births)
    requires w' == RegisterNext(w, a, hello, found)
    ensures HasAgent(w', a) && !w'.handlers[a].pc.Dropping?
  {
  }

  lemma LookUpDrops(w: World, w': World, a: AgentId, found: Option<SessionId>, s: StreamId)
    requires HasAgent(w, a) && AgentSideEnabled(w, a, LookUp(found)) && w' == LookUpNext(w, a, found)
    requires !w.handlers[a].hand.value.OpenStream? && HasAgent(w', a) && w'.handlers[a].pc == Dropping(s)
    ensures EndsStream(w.handlers[a].hand.value, s)
  {
    RouteDrops(w.handlers[a], s);
  }

  /** A handler begins to drop a stream only by dealing with an end of it. */
  lemma BeginsDropping(w: World, w': World, a: AgentId, side: AgentSide, s: StreamId)
    requires HasAgent(w, a) && AgentSideEnabled(w, a, side) && w' == AgentSideNext(w, a, side)
    requires w.handlers[a].hand.Some? ==> !w.handlers[a].hand.value.OpenStream?
    requires HasAgent(w', a) && w'.handlers[a].pc == Dropping(s) && w.handlers[a].pc != Dropping(s)
    ensures w.handlers[a].hand.Some? && EndsStream(w.handlers[a].hand.value, s)
  {
    match side {
      case Own(own) => OwnDrops(ConnOf(w, a), own, s);
      case Register(found) => RegisterDrops(w, w', a, found, w.handlers[a].pc.hello);
      case Attach =>
      case LookUp(found) => LookUpDrops(w, w', a, found, s);
      case Deliver => RouteDrops(w.handlers[a], s);
      case DeliverLost =>
      case DropStream =>
      case ClearAgent =>
    }
  }

  lemma DropsStep(w: World, w': World, st: Step, a: AgentId, s: StreamId)
    requires Ready(w, st) && Enabled(w, st) && w' == Next(w, st) && DropsEnded(w, a, s) && HandTaken(w, a)
    requires HasAgent(w, a) && w.handlers[a].hand.Some? ==> !w.handlers[a].hand.value.OpenStream?
    ensures DropsEnded(w', a, s)
  {
    if HasAgent(w', a) && w'.handlers[a].pc == Dropping(s) {
      if st.ByAgent? && st.agent == a {
        TakenStays(w, w', st, a);
        if w.handlers[a].pc != Dropping(s) { BeginsDropping(w, w', a, st.side, s); }
      } else {
        OtherConnection(w, w', st, a);
      }
    }
  }

  lemma {:induction false} RunDrops(run: seq<World>, steps: seq<Step>, j: nat, a: AgentId, s: StreamId)
    requires IsRun(run, steps) && j < |run|
    ensures DropsEnded(run[j], a, s)
  {
    if j > 0 {
      RunDrops(run, steps, j - 1, a, s);
      HandAt(run, steps, j - 1, a);
      FrameAt(run, steps, j - 1, a);
      ReadyAt(run, steps, j - 1);
      DropsStep(run[j - 1], run[j], steps[j - 1], a, s);
    }
  }

  lemma FrameAt(run: seq<World>, steps: seq<Step>, j: nat, a: AgentId)
    requires IsRun(run, steps) && j < |run|
    ensures HasAgent(run[j], a) && run[j].handlers[a].hand.Some? ==> !run[j].handlers[a].hand.value.OpenStream?
  {
    RunKeeps(run, steps, j);
    if HasAgent(run[j], a) && run[j].handlers[a].hand.Some? { HandIsFrame(run[j], a); }
  }

  /* ---------- streams that are missing ---------- */

  /** The stream entered its session's map, the session exists, and the map does not hold it. */
  predicate Missing(w: World, s: StreamId) {
    s in w.ops && w.ops[s].inserted && w.ops[s].session in w.sessions && !InOwnMap(w, s)
  }

  /** Its own handler has returned, its agent's handler is over, or its agent ended it. */
  predicate HasReason(w: World, s: StreamId)
    requires s in w.ops
  {
    || w.ops[s].pc.Gone?
    || AgentOver(w, w.ops[s])
    || (w.ops[s].agent.Some? && w.ops[s].agent.value in w.agents && EndTaken(w.agents[w.ops[s].agent.value], s))
  }

  ghost predicate MissingHasReason(w: World, s: StreamId) {
    Missing(w, s) ==> HasReason(w, s)
  }

  /** The step takes the stream out of its map. */
  predicate Removes(w: World, st: Step, s: StreamId)
    requires s in w.ops
  {
    || st == ByOperator(s, RemoveOwn)
    || (st.ByAgent? && st.side.DropStream? && st.agent in w.handlers && w.handlers[st.agent].pc == Dropping(s))
    || (st.ByAgent? && st.side.ClearAgent? && st.agent in w.handlers
        && w.handlers[st.agent].session == Some(w.ops[s].session))
  }

  /** If the map of `sid` held the stream and is still there, it holds it. */
  predicate KeepsMap(w: World, w': World, sid: SessionId, s: StreamId) {
    sid in w.sessions && s in w.sessions[sid].streams && sid in w'.sessions ==> s in w'.sessions[sid].streams
  }

  lemma RegisterKeepsMap(w: World, w': World, b: AgentId, found: Option<SessionId>, hello: WireMessage, sid: SessionId,
                         s: StreamId)
    requires HasAgent(w, b) && hello.AgentHello?
          && (found.Some? ==> found.value in w.sessions && found.value in w.births)
    requires w' == RegisterNext(w, b, hello, found)
    ensures KeepsMap(w, w', sid, s)
  {
  }

  lemma AttachKeepsMap(w: World, w': World, b: AgentId, own: SessionId, sid: SessionId, s: StreamId)
    requires HasAgent(w, b) && w' == AttachNext(w, b, own)
    ensures KeepsMap(w, w', sid, s)
  {
  }

  lemma LookUpKeepsMap(w: World, w': World, b: AgentId, found: Option<SessionId>)
    requires HasAgent(w, b) && AgentSideEnabled(w, b, LookUp(found)) && w' == LookUpNext(w, b, found)
    ensures w'.sessions == w.sessions
  {
  }

  lemma SideKeepsMap(w: World, w': World, b: AgentId, side: AgentSide, s: StreamId)
    requires HasAgent(w, b) && AgentSideEnabled(w, b, side) && w' == AgentSideNext(w, b, side)
    requires s in w.ops && !Removes(w, ByAgent(b, side), s)
    ensures KeepsMap(w, w', w.ops[s].session, s)
  {
    match side {
      case Own(_) =>
      case Register(found) => RegisterKeepsMap(w, w', b, found, w.handlers[b].pc.hello, w.ops[s].session, s);
      case Attach => AttachKeepsMap(w, w', b, w.handlers[b].session.value, w.ops[s].session, s);
      case LookUp(found) => LookUpKeepsMap(w, w', b, found);
      case Deliver =>
      case DeliverLost =>
      case DropStream =>
      case ClearAgent =>
    }
  }

  lemma OwnKeepsMap(w: World, w': World, s: StreamId, side: OperatorSide)
    requires HasOp(w, s) && OperatorSideEnabled(w, s, side) && w' == OperatorSideNext(w, s, side) && !side.RemoveOwn?
    ensures KeepsMap(w, w', w.ops[s].session, s)
  {
    match side {
      case Check =>
      case Insert =>
      case _ =>
    }
  }

  lemma OperatorKeepsMap(w: World, w': World, r: StreamId, side: OperatorSide, s: StreamId)
    requires HasOp(w, r) && HandlerPcOk(w.ops[r], r) && OperatorSideEnabled(w, r, side)
          && w' == OperatorSideNext(w, r, side)
    requires s in w.ops && !Removes(w, ByOperator(r, side), s)
    ensures KeepsMap(w, w', w.ops[s].session, s)
  {
    if r == s {
      OwnKeepsMap(w, w', s, side);
    } else {
      OperatorHasEffect(w, w', r, side);
      OtherMembership(w, w', r, w.ops[s].session, s);
    }
  }

  lemma TableKeepsMap(w: World, w': World, st: Step, s: StreamId)
    requires Enabled(w, st) && IsTableStep(st) && w' == Next(w, st) && s in w.ops && w.ops[s].session in w.births
    ensures KeepsMap(w, w', w.ops[s].session, s)
    ensures w.ops[s].session in w'.sessions ==> w.ops[s].session in w.sessions
  {
  }

  lemma StepKeepsMap(w: World, w': World, st: Step, s: StreamId)
    requires Ready(w, st) && Enabled(w, st) && w' == Next(w, st) && s in w.ops && !Removes(w, st, s)
    requires w.ops[s].session in w.births
    ensures KeepsMap(w, w', w.ops[s].session, s)
  {
    match st {
      case ByAgent(b, side) => SideKeepsMap(w, w', b, side, s);
      case ByOperator(r, side) => OperatorKeepsMap(w, w', r, side, s);
      case _ => TableKeepsMap(w, w', st, s);
    }
  }

  /** Sessions do not come back. */
  lemma StepMakesNoSession(w: World, w': World, st: Step, sid: SessionId)
    requires Ready(w, st) && Enabled(w, st) && w' == Next(w, st) && sid in w.births && sid in w'.sessions
    ensures sid in w.sessions
  {
    match st {
      case ByAgent(b, side) => SideHasEffect(w, w', b, side);
      case ByOperator(r, side) => OperatorHasEffect(w, w', r, side);
      case _ =>
    }
  }

  /* ---------- each removal has its reason ---------- */

  /** What the invariant says of a stream somebody removes. */
  ghost predicate RemoverKnown(w: World, st: Step, s: StreamId)
    requires s in w.ops
  {
    && (Removes(w, st, s) && st.ByAgent? && w.ops[s].inserted ==> w.ops[s].agent == Some(st.agent))
    && (st.ByAgent? && st.side.DropStream? ==> DropsEnded(w, st.agent, s))
  }

  lemma DropperIsOwner(w: World, b: AgentId, s: StreamId)
    requires Inv(w) && HasAgent(w, b) && w.handlers[b].pc == Dropping(s)
    ensures s in w.ops && w.ops[s].agent == Some(b)
  {
    assert AgInv(w, b);
    AskedStarted(w.ops, b, w.toAgent[b].Sent(), s);
  }

  lemma ClearerIsOwner(w: World, b: AgentId, s: StreamId)
    requires Inv(w) && HasAgent(w, b) && s in w.ops && w.ops[s].inserted
    requires w.handlers[b].session == Some(w.ops[s].session)
    ensures w.ops[s].agent == Some(b)
  {
    assert OpInv(w, s);
  }

  lemma InvRemover(w: World, st: Step, s: StreamId)
    requires Inv(w) && s in w.ops && st.ByAgent? && HasAgent(w, st.agent) && DropsEnded(w, st.agent, s)
    ensures RemoverKnown(w, st, s)
  {
    if w.handlers[st.agent].pc == Dropping(s) { DropperIsOwner(w, st.agent, s); }
    if w.ops[s].inserted && w.handlers[st.agent].session == Some(w.ops[s].session) { ClearerIsOwner(w, st.agent, s); }
  }

  lemma RemoverAt(run: seq<World>, steps: seq<Step>, i: nat, s: StreamId)
    requires IsRun(run, steps) && i < |steps| && s in run[i].ops
    ensures RemoverKnown(run[i], steps[i], s)
  {
    if steps[i].ByAgent? {
      ReadyAt(run, steps, i);
      RunKeeps(run, steps, i);
      RunDrops(run, steps, i, steps[i].agent, s);
      InvRemover(run[i], steps[i], s);
    }
  }

  lemma ClearEnds(w: World, w': World, b: AgentId)
    requires HasAgent(w, b) && AgentSideEnabled(w, b, ClearAgent) && w' == AgentSideNext(w, b, ClearAgent)
    ensures b in w'.handlers && w'.handlers[b].pc.Ended? && w'.ops == w.ops
  {
  }

  lemma RemoveOwnEnds(w: World, w': World, s: StreamId)
    requires HasOp(w, s) && OperatorSideEnabled(w, s, RemoveOwn) && w' == OperatorSideNext(w, s, RemoveOwn)
    ensures s in w'.ops && w'.ops[s].pc.Gone?
  {
  }

  lemma DropLeavesAgents(w: World, w': World, b: AgentId)
    requires HasAgent(w, b) && AgentSideEnabled(w, b, DropStream) && w' == AgentSideNext(w, b, DropStream)
    ensures w'.agents == w.agents && w'.ops == w.ops
  {
  }

  lemma RemovalHasReason(w: World, w': World, st: Step, s: StreamId)
    requires Enabled(w, st) && w' == Next(w, st) && s in w.ops && w.ops[s].inserted && Removes(w, st, s)
    requires RemoverKnown(w, st, s)
    ensures s in w'.ops && HasReason(w', s)
  {
    match st {
      case ByOperator(_, _) => RemoveOwnEnds(w, w', s);
      case ByAgent(b, side) =>
        if side.ClearAgent? {
          ClearEnds(w, w', b);
        } else {
          DropLeavesAgents(w, w', b);
        }
    }
  }

  lemma OverStays(w: World, w': World, s: StreamId, a: AgentId)
    requires s in w.ops && w.ops[s].agent == Some(a) && HasAgent(w, a) && AgentOver(w, w.ops[s])
    requires AgentMoves(w, w', a) && s in w'.ops && w'.ops[s].agent == Some(a)
    ensures AgentOver(w', w'.ops[s])
  {
  }

  lemma EndStaysTaken(w: World, w': World, a: AgentId, s: StreamId)
    requires HasAgent(w, a) && HasAgent(w', a) && w.agents[a].up.delivered <= w'.agents[a].up.delivered
    requires EndTaken(w.agents[a], s)
    ensures EndTaken(w'.agents[a], s)
  {
    var m :| m in w.agents[a].up.delivered && EndsStream(m, s);
    assert m in w'.agents[a].up.delivered;
  }

  lemma ReasonStays(w: World, w': World, st: Step, s: StreamId, a: AgentId)
    requires Ready(w, st) && Enabled(w, st) && w' == Next(w, st) && s in w.ops && HasReason(w, s)
    requires w.ops[s].agent == Some(a) && HasAgent(w, a) && AgentMoves(w, w', a) && OpMoves(w, w', s)
    ensures s in w'.ops && HasReason(w', s)
  {
    TakenStays(w, w', st, a);
    if AgentOver(w, w.ops[s]) {
      OverStays(w, w', s, a);
    } else if EndTaken(w.agents[a], s) {
      EndStaysTaken(w, w', a, s);
    }
  }

  lemma MissingAt(run: seq<World>, steps: seq<Step>, i: nat, s: StreamId)
    requires IsRun(run, steps) && i < |steps| && MissingHasReason(run[i], s)
    ensures MissingHasReason(run[i + 1], s)
  {
    if Missing(run[i + 1], s) {
      ReadyAt(run, steps, i);
      WasInserted(run, steps, i, s);
      ForwardAt(run, steps, i, run[i].ops[s].agent.value, s);
      if Missing(run[i], s) {
        ReasonStays(run[i], run[i + 1], steps[i], s, run[i].ops[s].agent.value);
      } else {
        RemoverAt(run, steps, i, s);
        if !Removes(run[i], steps[i], s) { StepKeepsMap(run[i], run[i + 1], steps[i], s); }
        RemovalHasReason(run[i], run[i + 1], steps[i], s);
      }
    }
  }

  /** A stream that is missing was inserted before: insertion puts it in its map. */
  lemma WasInserted(run: seq<World>, steps: seq<Step>, i: nat, s: StreamId)
    requires IsRun(run, steps) && i < |steps| && Missing(run[i + 1], s)
    ensures s in run[i].ops && run[i].ops[s].inserted && run[i].ops[s].session == run[i + 1].ops[s].session
    ensures run[i].ops[s].session in run[i].births && run[i].ops[s].session in run[i].sessions
    ensures run[i].ops[s].agent.Some? && HasAgent(run[i], run[i].ops[s].agent.value)
  {
    ReadyAt(run, steps, i);
    RunKeeps(run, steps, i);
    InsertedBefore(run[i], run[i + 1], steps[i], s);
    InsertedIsBorn(run[i], s);
    StepMakesNoSession(run[i], run[i + 1], steps[i], run[i].ops[s].session);
  }

  lemma InsertedIsBorn(w: World, s: StreamId)
    requires Inv(w) && s in w.ops && w.ops[s].inserted
    ensures w.ops[s].session in w.births && w.ops[s].agent.Some? && HasAgent(w, w.ops[s].agent.value)
  {
    assert OpInv(w, s);
  }

  lemma InsertPuts(w: World, w': World, s: StreamId)
    requires HasOp(w, s) && HandlerPcOk(w.ops[s], s) && w.ops[s].pc.Inserting? && w' == InsertNext(w, s)
    ensures !Missing(w', s)
  {
  }

  lemma OwnInserted(w: World, w': World, s: StreamId, side: OperatorSide)
    requires HasOp(w, s) && HandlerPcOk(w.ops[s], s) && OperatorSideEnabled(w, s, side)
          && w' == OperatorSideNext(w, s, side)
    requires Missing(w', s)
    ensures w.ops[s].inserted && w.ops[s].session == w'.ops[s].session
  {
    OperatorHasEffect(w, w', s, side);
    if side.Insert? {
      InsertPuts(w, w', s);
    } else {
      OnlyInsertInserts(w, w', s, side);
    }
  }

  lemma OnlyInsertInserts(w: World, w': World, s: StreamId, side: OperatorSide)
    requires HasOp(w, s) && HandlerPcOk(w.ops[s], s) && OperatorSideEnabled(w, s, side)
          && w' == OperatorSideNext(w, s, side) && !side.Insert?
    ensures s in w'.ops && w'.ops[s].inserted == w.ops[s].inserted
  {
    match side {
      case Local(step) => LocalRecord(w.ops[s], s, w.toOp[s], step);
      case Check =>
      case _ =>
    }
  }

  lemma InsertedBefore(w: World, w': World, st: Step, s: StreamId)
    requires Ready(w, st) && Enabled(w, st) && w' == Next(w, st) && Missing(w', s)
    ensures s in w.ops && w.ops[s].inserted && w.ops[s].session == w'.ops[s].session
  {
    match st {
      case ByAgent(b, side) => SideHasEffect(w, w', b, side);
      case ByOperator(r, side) =>
        if r == s { OwnInserted(w, w', s, side); } else { OperatorHasEffect(w, w', r, side); }
      case _ =>
    }
  }

  lemma {:induction false} RunMissing(run: seq<World>, steps: seq<Step>, j: nat, s: StreamId)
    requires IsRun(run, steps) && j < |run|
    ensures MissingHasReason(run[j], s)
  {
    if j > 0 {
      RunMissing(run, steps, j - 1, s);
      MissingAt(run, steps, j - 1, s);
    }
  }

  /** A stream that entered its session's map and is in no map, though its session exists, is out for a
      reason: its operator handler has returned, its agent's handler is over, or its agent ended it. */
  lemma OutOfMapHasReason(w: World, s: StreamId)
    requires Reachable(w) && s in w.ops && w.ops[s].inserted && w.ops[s].session in w.sessions
    requires !InSomeMap(w.sessions, s)
    ensures HasReason(w, s)
  {
    InMapIsOwn(w, s);
    var run, steps :| IsRun(run, steps) && w in run;
    var j :| 0 <= j < |run| && run[j] == w;
    RunMissing(run, steps, j, s);
  }

  /** While its agent's handler is in its loop and not dealing with an end of it, a stream that entered its
      map is in it exactly if its session exists, its agent has not ended it, and its own handler has not
      returned after opening it. */
  lemma InMapExactly(w: World, s: StreamId, a: AgentId)
    requires Reachable(w) && s in w.ops && w.ops[s].inserted && w.ops[s].agent == Some(a)
    requires HasAgent(w, a) && Calm(w.handlers[a], s)
    ensures InSomeMap(w.sessions, s) <==>
              w.ops[s].session in w.sessions && !EndTaken(w.agents[a], s) && !(w.ops[s].pc.Gone? && w.ops[s].started)
  {
    InMapIsOwn(w, s);
    if InSomeMap(w.sessions, s) {
      if EndTaken(w.agents[a], s) { EndedStreamsAreRemoved(w, a, s); }
      if w.ops[s].pc.Gone? { FinishedStreamsAreRemoved(w, s); }
    } else if w.ops[s].session in w.sessions {
      OutOfMapHasReason(w, s);
      if w.ops[s].pc.Gone? { LeftBehindExactly(w, s); }
    }
  }
}
