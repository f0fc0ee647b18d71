/** The early return after a refused `OpenStream` skips the removal. Exactly which streams it leaves
    behind in their session's map, for how long, and a run that shows one. */
module Leaks {
  import opened Wire
  import opened Pipes
  import opened OperatorStream
  import opened RelaySystem
  import opened RelayInvariant
  import opened Invariance
  import opened Evolution
  import opened Delivery
  import opened SingleUse
  import opened Routing
  import opened Cleanup

  /* ---------- streams that entered their map and were not opened ---------- */

  /** In its map, with an agent to open it at, but without an accepted `OpenStream`. */
  predicate Unopened(w: World, s: StreamId) {
    && s in w.ops && w.ops[s].inserted && !w.ops[s].started
    && w.ops[s].agent.Some? && w.ops[s].agent.value in w.handlers
  }

  predicate InOwnMap(w: World, s: StreamId)
    requires s in w.ops
  {
    w.ops[s].session in w.sessions && s in w.sessions[w.ops[s].session].streams
  }

  /** Its session exists, and its agent's handler has not cleared the map since the stream entered it. */
  predicate NotCleared(w: World, s: StreamId)
    requires Unopened(w, s)
  {
    w.ops[s].session in w.sessions && (w.ops[s].late || !AgentOver(w, w.ops[s]))
  }

  predicate LeakExact(w: World, s: StreamId) {
    Unopened(w, s) ==> (w.ops[s].late ==> AgentOver(w, w.ops[s])) && (InOwnMap(w, s) <==> NotCleared(w, s))
  }

  /** The session `sid` is there, and holds `s`, just as before. */
  predicate SameMembership(w: World, w': World, sid: SessionId, s: StreamId) {
    && (sid in w'.sessions <==> sid in w.sessions)
    && (sid in w.sessions ==> (s in w'.sessions[sid].streams <==> s in w.sessions[sid].streams))
  }

  /** Nothing that `LeakExact` speaks of changes. */
  lemma LeakFrame(w: World, w': World, s: StreamId)
    requires LeakExact(w, s) && s in w.ops && s in w'.ops && SameMembership(w, w', w.ops[s].session, s)
    requires w'.ops[s] == w.ops[s].(pc := w'.ops[s].pc, fwd := w'.ops[s].fwd, up := w'.ops[s].up,
                                    taken := w'.ops[s].taken, bridge := w'.ops[s].bridge)
    requires w.ops[s].agent.Some? && w.ops[s].agent.value in w'.handlers ==>
               w.ops[s].agent.value in w.handlers
               && (w'.handlers[w.ops[s].agent.value].pc.Ended? <==> w.handlers[w.ops[s].agent.value].pc.Ended?)
    ensures LeakExact(w', s)
  {
  }

  /* ---------- steps of an agent's side ---------- */

  /** What the invariant says of an unopened stream's agent: it is attached to the stream's session, the
      only one that is, and nobody drops the stream. */
  ghost predicate OwnedBy(w: World, s: StreamId, b: AgentId) {
    b in w.handlers && Unopened(w, s) ==>
      && w.handlers[w.ops[s].agent.value].attached
      && w.handlers[w.ops[s].agent.value].session == Some(w.ops[s].session)
      && (b != w.ops[s].agent.value ==> w.handlers[b].session != Some(w.ops[s].session))
      && w.handlers[b].pc != Dropping(s)
  }

  lemma InvOwned(w: World, s: StreamId, b: AgentId)
    requires Inv(w)
    ensures OwnedBy(w, s, b)
  {
    if b in w.handlers && Unopened(w, s) {
      InvLinks(w, s);
      var a := w.ops[s].agent.value;
      if b != a { SessionsDiffer(w, a, b); }
      NobodyDrops(w, s, b);
    }
  }

  lemma NobodyDrops(w: World, s: StreamId, b: AgentId)
    requires Inv(w) && b in w.handlers && s in w.ops && !w.ops[s].started
    ensures w.handlers[b].pc != Dropping(s)
  {
    assert AgInv(w, b);
    if w.handlers[b].pc == Dropping(s) {
      AskedStarted(w.ops, b, w.toAgent[b].Sent(), s);
    }
  }

  lemma OwnKeepsEnded(c: Conn, own: OwnStep)
    requires OwnEnabled(c, own) && c.h.attached && ServePcOk(c.h)
    ensures OwnNext(c, own).h.pc.Ended? <==> c.h.pc.Ended?
  {
  }

  lemma OwnLeak(w: World, w': World, b: AgentId, own: OwnStep, c: Conn, s: StreamId)
    requires HasAgent(w, b) && OwnEnabled(ConnOf(w, b), own) && c == OwnNext(ConnOf(w, b), own)
          && w' == WithConn(w, b, c)
    requires LeakExact(w, s) && OwnedBy(w, s, b) && ServePcOk(w.handlers[b])
    ensures LeakExact(w', s)
  {
    if Unopened(w, s) {
      if b == w.ops[s].agent.value { OwnKeepsEnded(ConnOf(w, b), own); }
      LeakFrame(w, w', s);
    }
  }

  /** A step of handler `b` that neither begins nor ends it, and touches no membership of `s`. */
  lemma HandlerLeak(w: World, w': World, b: AgentId, h: AgentHandler, s: StreamId)
    requires b in w.handlers && w'.handlers == w.handlers[b := h] && w'.ops == w.ops
    requires Unopened(w, s) && b == w.ops[s].agent.value ==> (h.pc.Ended? <==> w.handlers[b].pc.Ended?)
    requires LeakExact(w, s) && (Unopened(w, s) ==> SameMembership(w, w', w.ops[s].session, s))
    ensures LeakExact(w', s)
  {
    if Unopened(w, s) {
      LeakFrame(w, w', s);
    }
  }

  lemma RegisterLeak(w: World, w': World, b: AgentId, found: Option<SessionId>, hello: WireMessage, s: StreamId)
    requires HasAgent(w, b) && w.handlers[b].pc == Joining(hello) && hello.AgentHello? && ServePcOk(w.handlers[b])
    requires found.Some? ==> found.value in w.sessions && found.value in w.births
    requires w' == RegisterNext(w, b, hello, found) && LeakExact(w, s) && OwnedBy(w, s, b)
    ensures LeakExact(w', s)
  {
    HandlerLeak(w, w', b, w'.handlers[b], s);
  }

  lemma AttachLeak(w: World, w': World, b: AgentId, sid: SessionId, s: StreamId)
    requires HasAgent(w, b) && w.handlers[b].pc.Attaching? && ServePcOk(w.handlers[b])
    requires w' == AttachNext(w, b, sid) && LeakExact(w, s) && OwnedBy(w, s, b)
    ensures LeakExact(w', s)
  {
    if sid in w.sessions {
      HandlerLeak(w, w', b, w.handlers[b].(pc := Serving, attached := true), s);
    } else {
      HandlerLeak(w, w', b, w.handlers[b].(pc := Ended), s);
    }
  }

  /** Clearing removes the stream, if the clearing handler is its agent's. */
  lemma ClearLeak(w: World, w': World, b: AgentId, sid: SessionId, s: StreamId)
    requires HasAgent(w, b) && w.handlers[b].pc.Clearing? && w.handlers[b].session == Some(sid)
    requires w' == ClearNext(w, b, sid) && LeakExact(w, s) && OwnedBy(w, s, b)
    ensures LeakExact(w', s)
  {
    if Unopened(w, s) && b != w.ops[s].agent.value {
      LeakFrame(w, w', s);
    }
  }

  lemma RouteLeak(w: World, w': World, b: AgentId, side: AgentSide, s: StreamId)
    requires HasAgent(w, b) && AgentSideEnabled(w, b, side) && w' == AgentSideNext(w, b, side) && IsRouting(side)
    requires LeakExact(w, s) && OwnedBy(w, s, b)
    ensures LeakExact(w', s)
  {
    var h := w.handlers[b];
    match side {
      case LookUp(found) => LookUpLeak(w, w', b, found, s);
      case Deliver => HandlerLeak(w, w', b, AfterRouting(h), s);
      case DeliverLost => HandlerLeak(w, w', b, h.(pc := Disconnecting), s);
      case DropStream => HandlerLeak(w, w', b, h.(pc := Serving), s);
    }
  }

  lemma LookUpLeak(w: World, w': World, b: AgentId, found: Option<SessionId>, s: StreamId)
    requires HasAgent(w, b) && AgentSideEnabled(w, b, LookUp(found)) && w' == LookUpNext(w, b, found) && LeakExact(w, s)
    ensures LeakExact(w', s)
  {
    HandlerLeak(w, w', b, w'.handlers[b], s);
  }

  lemma SideLeak(w: World, w': World, b: AgentId, side: AgentSide, s: StreamId)
    requires HasAgent(w, b) && AgentSideEnabled(w, b, side) && w' == AgentSideNext(w, b, side)
    requires LeakExact(w, s) && OwnedBy(w, s, b) && ServePcOk(w.handlers[b])
    ensures LeakExact(w', s)
  {
    if side.Own? {
      OwnLeak(w, w', b, side.own, OwnNext(ConnOf(w, b), side.own), s);
    } else if IsRouting(side) {
      RouteLeak(w, w', b, side, s);
    } else {
      match side {
        case Register(found) => RegisterLeak(w, w', b, found, w.handlers[b].pc.hello, s);
        case Attach => AttachLeak(w, w', b, w.handlers[b].session.value, s);
        case ClearAgent => ClearLeak(w, w', b, w.handlers[b].session.value, s);
      }
    }
  }

  /* ---------- steps of an operator's side ---------- */

  lemma LocalRecord(op: Operator, s: StreamId, out: Pipe, step: OperatorStep)
    requires OperatorEnabled(op, out, step)
    ensures var op' := OperatorNext(op, s, out, step);
      op' == op.(pc := op'.pc, fwd := op'.fwd, up := op'.up, taken := op'.taken, bridge := op'.bridge)
  {
  }

  lemma SendLeak(w: World, w': World, s: StreamId, side: OperatorSide)
    requires HasOp(w, s) && HandlerPcOk(w.ops[s], s) && OperatorSideEnabled(w, s, side)
    requires w' == OperatorSideNext(w, s, side) && IsSend(side)
    ensures !Unopened(w', s)
  {
    match side {
      case SendOpen =>
      case Forward =>
      case TellAgentDone =>
    }
  }

  /** The insertion records whether the agent's handler was over: the stream is in its map either way. */
  lemma InsertLeak(w: World, w': World, s: StreamId)
    requires HasOp(w, s) && HandlerPcOk(w.ops[s], s) && w.ops[s].pc.Inserting? && w' == InsertNext(w, s)
    ensures LeakExact(w', s)
  {
  }

  lemma CheckLeak(w: World, w': World, s: StreamId)
    requires HasOp(w, s) && HandlerPcOk(w.ops[s], s) && w.ops[s].pc.Checking? && w' == CheckNext(w, s)
    ensures !Unopened(w', s)
  {
  }

  lemma OwnOpLeak(w: World, w': World, s: StreamId, side: OperatorSide)
    requires HasOp(w, s) && HandlerPcOk(w.ops[s], s) && OperatorSideEnabled(w, s, side)
    requires w' == OperatorSideNext(w, s, side) && LeakExact(w, s)
    ensures LeakExact(w', s)
  {
    if IsSend(side) {
      SendLeak(w, w', s, side);
    } else {
      match side {
        case Local(step) =>
          LocalRecord(w.ops[s], s, w.toOp[s], step);
          LeakFrame(w, w', s);
        case Check => CheckLeak(w, w', s);
        case Insert => InsertLeak(w, w', s);
        case SendOpenLost => LeakFrame(w, w', s);
        case ForwardLost =>
        case RemoveOwn =>
      }
    }
  }

  lemma OpLeak(w: World, w': World, r: StreamId, side: OperatorSide, s: StreamId)
    requires HasOp(w, r) && HandlerPcOk(w.ops[r], r) && OperatorSideEnabled(w, r, side)
    requires w' == OperatorSideNext(w, r, side) && LeakExact(w, s)
    ensures LeakExact(w', s)
  {
    if r == s {
      OwnOpLeak(w, w', s, side);
    } else {
      OperatorHasEffect(w, w', r, side);
      EffectLeak(w, w', r, s);
    }
  }

  /** Another stream's steps leave the membership of `s` alone. */
  lemma OtherMembership(w: World, w': World, r: StreamId, sid: SessionId, s: StreamId)
    requires OpEffect(w, w', r) && r != s
    ensures SameMembership(w, w', sid, s)
  {
    if sid in w.sessions {
      assert s in w.sessions[sid].streams.Keys <==> s in w'.sessions[sid].streams.Keys;
    }
  }

  lemma EffectLeak(w: World, w': World, r: StreamId, s: StreamId)
    requires OpEffect(w, w', r) && r != s && LeakExact(w, s)
    ensures LeakExact(w', s)
  {
    if s in w.ops {
      OtherMembership(w, w', r, w.ops[s].session, s);
      LeakFrame(w, w', s);
    }
  }

  /* ---------- all steps, all runs ---------- */

  lemma TableLeak(w: World, w': World, st: Step, s: StreamId)
    requires Enabled(w, st) && IsTableStep(st) && w' == Next(w, st) && LeakExact(w, s) && w.nextStream !in w.ops
    requires Unopened(w, s) ==> w.ops[s].session in w.births
    requires s in w.ops && w.ops[s].agent.Some? ==> HasAgent(w, w.ops[s].agent.value)
    ensures LeakExact(w', s)
  {
  }

  /** What a step needs to know to keep leaks exact. */
  ghost predicate LeakReady(w: World, st: Step, s: StreamId) {
    && Ready(w, st)
    && (st.ByAgent? ==> OwnedBy(w, s, st.agent))
    && (Unopened(w, s) ==> w.ops[s].session in w.births)
    && (s in w.ops && w.ops[s].agent.Some? ==> HasAgent(w, w.ops[s].agent.value))
  }

  lemma StepLeak(w: World, w': World, st: Step, s: StreamId)
    requires LeakReady(w, st, s) && Enabled(w, st) && w' == Next(w, st) && LeakExact(w, s)
    ensures LeakExact(w', s)
  {
    match st {
      case ByAgent(b, side) => SideLeak(w, w', b, side, s);
      case ByOperator(r, side) => OpLeak(w, w', r, side, s);
      case _ => TableLeak(w, w', st, s);
    }
  }

  lemma InvLeakReady(w: World, st: Step, s: StreamId)
    requires Inv(w) && Ready(w, st)
    ensures LeakReady(w, st, s)
  {
    if s in w.ops && w.ops[s].agent.Some? { InvLinks(w, s); }
    if st.ByAgent? { InvOwned(w, s, st.agent); }
  }

  lemma LeakAt(run: seq<World>, steps: seq<Step>, i: nat, s: StreamId)
    requires IsRun(run, steps) && i < |steps| && LeakExact(run[i], s)
    ensures LeakExact(run[i + 1], s)
  {
    RunKeeps(run, steps, i);
    assert Follows(run, steps, i);
    InvReady(run[i], steps[i]);
    InvLeakReady(run[i], steps[i], s);
    StepLeak(run[i], run[i + 1], steps[i], s);
  }

  lemma {:induction false} RunLeak(run: seq<World>, steps: seq<Step>, i: nat, s: StreamId)
    requires IsRun(run, steps) && i < |run|
    ensures LeakExact(run[i], s)
  {
    if i > 0 {
      RunLeak(run, steps, i - 1, s);
      LeakAt(run, steps, i - 1, s);
    }
  }

  lemma ReachableLeak(w: World, s: StreamId)
    requires Reachable(w)
    ensures LeakExact(w, s)
  {
    var run, steps :| IsRun(run, steps) && w in run;
    var i :| 0 <= i < |run| && run[i] == w;
    RunLeak(run, steps, i, s);
  }

  lemma InMapIsOwn(w: World, s: StreamId)
    requires Reachable(w) && s in w.ops
    ensures InSomeMap(w.sessions, s) <==> InOwnMap(w, s)
  {
    if InSomeMap(w.sessions, s) {
      var sid :| sid in w.sessions && s in w.sessions[sid].streams;
      StreamInOwnMapOnly(w, s, sid);
    }
  }

  lemma InsertedHasAgent(w: World, s: StreamId)
    requires Reachable(w) && s in w.ops && w.ops[s].inserted
    ensures w.ops[s].agent.Some? && w.ops[s].agent.value in w.handlers
  {
    ReachableInv(w);
    assert OpInv(w, s);
  }

  /** A stream whose operator handler has returned is still in a map exactly if it was inserted and never
      opened, its session still exists, and its agent's handler was over before the insertion or is not
      over yet: the clearing at the end of that handler is the only thing that would have removed it. */
  lemma LeftBehindExactly(w: World, s: StreamId)
    requires Reachable(w) && s in w.ops && w.ops[s].pc.Gone?
    ensures var op := w.ops[s];
      InSomeMap(w.sessions, s) <==>
        op.inserted && !op.started && op.session in w.sessions && (op.late || !AgentOver(w, op))
  {
    ReachableLeak(w, s);
    InMapIsOwn(w, s);
    if InSomeMap(w.sessions, s) { FinishedStreamsAreRemoved(w, s); }
    if w.ops[s].inserted { InsertedHasAgent(w, s); }
  }

  /* ---------- for how long ---------- */

  lemma OpKeepsSessions(w: World, w': World, r: StreamId, side: OperatorSide)
    requires HasOp(w, r) && HandlerPcOk(w.ops[r], r) && OperatorSideEnabled(w, r, side)
          && w' == OperatorSideNext(w, r, side)
    ensures w'.sessions.Keys == w.sessions.Keys
  {
    OperatorHasEffect(w, w', r, side);
  }

  /** Only `EndSession` removes a session. */
  lemma StepKeepsSession(w: World, w': World, st: Step, sid: SessionId)
    requires Ready(w, st) && Enabled(w, st) && w' == Next(w, st) && sid in w.sessions && st != EndSession(sid)
    ensures sid in w'.sessions
  {
    match st {
      case ByAgent(b, side) => SideHasEffect(w, w', b, side);
      case ByOperator(r, side) => OpKeepsSessions(w, w', r, side);
      case EndSession(_) =>
      case CreateSession(_, _, _, _, _) =>
      case _ =>
    }
  }

  lemma EndRemovesSession(w: World, w': World, sid: SessionId)
    requires Enabled(w, EndSession(sid)) && w' == Next(w, EndSession(sid))
    ensures sid !in w'.sessions
  {
  }

  predicate EndsBetween(steps: seq<Step>, sid: SessionId, i: nat, j: nat)
    requires i <= j <= |steps|
  {
    exists k :: i <= k < j && steps[k] == EndSession(sid)
  }

  /** A returned handler's stream, late in its map. */
  ghost predicate Leaked(w: World, s: StreamId) {
    s in w.ops && w.ops[s].pc.Gone? && w.ops[s].inserted && w.ops[s].late && InSomeMap(w.sessions, s)
  }

  lemma SessionStaysAt(run: seq<World>, steps: seq<Step>, i: nat, sid: SessionId)
    requires IsRun(run, steps) && i < |steps| && sid in run[i].sessions && steps[i] != EndSession(sid)
    ensures sid in run[i + 1].sessions
  {
    RunKeeps(run, steps, i);
    assert Follows(run, steps, i);
    InvReady(run[i], steps[i]);
    StepKeepsSession(run[i], run[i + 1], steps[i], sid);
  }

  lemma LeakStep(run: seq<World>, steps: seq<Step>, i: nat, s: StreamId)
    requires IsRun(run, steps) && i < |steps| && Leaked(run[i], s) && steps[i] != EndSession(run[i].ops[s].session)
    ensures Leaked(run[i + 1], s) && run[i + 1].ops[s].session == run[i].ops[s].session
  {
    assert Reachable(run[i]) && Reachable(run[i + 1]);
    RunForward(run, steps, i, i + 1, 0, s);
    LeftBehindExactly(run[i], s);
    SessionStaysAt(run, steps, i, run[i].ops[s].session);
    LeftBehindExactly(run[i + 1], s);
  }

  /** A stream left behind after its agent's handler was over stays in its map exactly until its session
      is ended: nothing else in the system ever removes it. */
  lemma {:induction false} LeakLastsUntilEnd(run: seq<World>, steps: seq<Step>, i: nat, j: nat, s: StreamId)
    requires IsRun(run, steps) && i <= j < |run| && Leaked(run[i], s)
    ensures s in run[j].ops && run[j].ops[s].session == run[i].ops[s].session
    ensures InSomeMap(run[j].sessions, s) <==> !EndsBetween(steps, run[i].ops[s].session, i, j)
    ensures InSomeMap(run[j].sessions, s) ==> Leaked(run[j], s)
    decreases j - i
  {
    if i < j {
      var sid := run[i].ops[s].session;
      LeakLastsUntilEnd(run, steps, i, j - 1, s);
      RunForward(run, steps, i, j - 1, 0, s);
      RunForward(run, steps, j - 1, j, 0, s);
      if InSomeMap(run[j - 1].sessions, s) {
        LeakOrEnd(run, steps, j - 1, s);
        assert EndsBetween(steps, sid, i, j) <==> steps[j - 1] == EndSession(sid);
      } else {
        var k :| i <= k < j - 1 && steps[k] == EndSession(sid);
        assert EndsBetween(steps, sid, i, j);
      }
    }
  }

  lemma LeakOrEnd(run: seq<World>, steps: seq<Step>, i: nat, s: StreamId)
    requires IsRun(run, steps) && i < |steps| && Leaked(run[i], s)
    ensures s in run[i + 1].ops
    ensures InSomeMap(run[i + 1].sessions, s) <==> steps[i] != EndSession(run[i].ops[s].session)
    ensures InSomeMap(run[i + 1].sessions, s) ==> Leaked(run[i + 1], s)
  {
    RunForward(run, steps, i, i + 1, 0, s);
    var sid := run[i].ops[s].session;
    if steps[i] == EndSession(sid) {
      assert Reachable(run[i + 1]);
      assert Follows(run, steps, i);
      EndRemovesSession(run[i], run[i + 1], sid);
      InMapIsOwn(run[i + 1], s);
    } else {
      LeakStep(run, steps, i, s);
    }
  }
}
