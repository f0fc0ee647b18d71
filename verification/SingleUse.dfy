/** A session code works once: over a whole run at most one agent ever uses it, and a session only
    moves forward through fresh, consumed, attached, detached. */
module SingleUse {
  import opened Wire
  import opened OperatorStream
  import opened RelayRules
  import opened RelaySystem
  import opened RelayInvariant
  import opened Invariance
  import opened Evolution
  import opened Delivery

  datatype Phase = Fresh | Consumed | Attached | Detached

  function Rank(p: Phase): nat {
    match p
    case Fresh => 0
    case Consumed => 1
    case Attached => 2
    case Detached => 3
  }

  /** The phase of a session, read off the handler of the agent that used its code. */
  function PhaseOf(w: World, sid: SessionId): Phase
    requires sid in w.births
  {
    match w.births[sid].usedBy
    case None => Fresh
    case Some(a) =>
      if a !in w.handlers then Detached
      else
        var h := w.handlers[a];
        if h.pc.Ended? then Detached else if IsLive(h) then Attached else Consumed
  }

  /** A handler that got past registration is the one recorded user of its session. */
  lemma RegisteredIsUser(w: World, a: AgentId, sid: SessionId)
    requires Reachable(w) && HasAgent(w, a) && w.handlers[a].session == Some(sid)
    ensures sid in w.births && w.births[sid].usedBy == Some(a)
  {
    ReachableInv(w);
    assert AgInv(w, a);
  }

  /** Of any number of hellos, at any times of one run, at most one is ever registered for a session,
      so at most one agent is ever attached to it. */
  lemma AtMostOneAgentEver(run: seq<World>, steps: seq<Step>, i: nat, j: nat, a: AgentId, b: AgentId, sid: SessionId)
    requires IsRun(run, steps) && i <= j < |run|
    requires HasAgent(run[i], a) && run[i].handlers[a].session == Some(sid)
    requires HasAgent(run[j], b) && run[j].handlers[b].session == Some(sid)
    ensures a == b
  {
    assert Reachable(run[i]) && Reachable(run[j]);
    RegisteredIsUser(run[i], a, sid);
    RegisteredIsUser(run[j], b, sid);
    RunForward(run, steps, i, j, a, 0);
  }

  /* ---------- an attached handler's session knows it ---------- */

  /** While the handler of `a` is connected and its session exists, the session's sender is its own. */
  ghost predicate Known(w: World, a: AgentId) {
    a in w.handlers && IsLive(w.handlers[a]) && w.handlers[a].session.Some?
        && w.handlers[a].session.value in w.sessions ==>
      w.sessions[w.handlers[a].session.value].agent == Some(a)
  }

  /** The session of another agent keeps its sender. */
  ghost predicate SendersKept(sessions: Sessions, sessions': Sessions, except: Option<SessionId>) {
    forall sid :: sid in sessions' && Some(sid) != except ==>
        sid in sessions && sessions'[sid].agent == sessions[sid].agent
  }

  lemma KnownKept(w: World, w': World, a: AgentId, except: Option<SessionId>)
    requires Known(w, a) && SendersKept(w.sessions, w'.sessions, except)
    requires a in w'.handlers && IsLive(w'.handlers[a]) && w'.handlers[a].session.Some? ==>
               a in w.handlers && IsLive(w.handlers[a]) && w'.handlers[a].session == w.handlers[a].session
                   && w.handlers[a].session != except
    ensures Known(w', a)
  {
  }

  lemma OwnNotNewlyLive(c: Conn, own: OwnStep)
    requires OwnEnabled(c, own) && IsLive(OwnNext(c, own).h)
    ensures IsLive(c.h) && OwnNext(c, own).h.session == c.h.session
  {
  }

  /** Handler `b` moves without becoming connected, and no session's sender changes. */
  lemma MoveKnown(w: World, w': World, b: AgentId, h: AgentHandler, a: AgentId)
    requires b in w.handlers && Known(w, a) && w'.handlers == w.handlers[b := h]
    requires IsLive(h) ==> IsLive(w.handlers[b]) && h.session == w.handlers[b].session
    requires SendersKept(w.sessions, w'.sessions, None)
    ensures Known(w', a)
  {
    KnownKept(w, w', a, None);
  }

  lemma AttachKnown(w: World, w': World, b: AgentId, sid: SessionId, a: AgentId)
    requires HasAgent(w, b) && w.handlers[b].session == Some(sid) && Known(w, a) && w' == AttachNext(w, b, sid)
    requires a in w.handlers && a != b && w.handlers[a].session.Some? ==> w.handlers[a].session != Some(sid)
    ensures Known(w', a)
  {
    if sid in w.sessions {
      AttachedKnown(w, w', b, sid, a, w'.handlers[b]);
    } else {
      MoveKnown(w, w', b, w.handlers[b].(pc := Ended), a);
    }
  }

  lemma AttachedKnown(w: World, w': World, b: AgentId, sid: SessionId, a: AgentId, h: AgentHandler)
    requires b in w.handlers && w.handlers[b].session == Some(sid) && h.session == Some(sid) && Known(w, a)
    requires sid in w.sessions && w'.sessions == WithAgent(w.sessions, sid, b) && w'.handlers == w.handlers[b := h]
    requires a in w.handlers && a != b && w.handlers[a].session.Some? ==> w.handlers[a].session != Some(sid)
    ensures Known(w', a)
  {
    if a != b { KnownKept(w, w', a, Some(sid)); }
  }

  lemma ClearKnown(w: World, w': World, b: AgentId, sid: SessionId, a: AgentId)
    requires HasAgent(w, b) && w.handlers[b].session == Some(sid) && Known(w, a) && w' == ClearNext(w, b, sid)
    requires a in w.handlers && a != b && w.handlers[a].session.Some? ==> w.handlers[a].session != Some(sid)
    ensures Known(w', a)
  {
    if a != b { KnownKept(w, w', a, Some(sid)); }
  }

  lemma OwnKnown(w: World, w': World, b: AgentId, own: OwnStep, c: Conn, a: AgentId)
    requires HasAgent(w, b) && OwnEnabled(ConnOf(w, b), own) && c == OwnNext(ConnOf(w, b), own)
          && w' == WithConn(w, b, c)
    requires Known(w, a)
    ensures Known(w', a)
  {
    if IsLive(c.h) {
      OwnNotNewlyLive(ConnOf(w, b), own);
    }
    MoveKnown(w, w', b, c.h, a);
  }

  lemma RegisterKnown(w: World, w': World, b: AgentId, found: Option<SessionId>, hello: WireMessage, a: AgentId)
    requires HasAgent(w, b) && hello.AgentHello?
          && (found.Some? ==> found.value in w.sessions && found.value in w.births)
    requires w' == RegisterNext(w, b, hello, found) && Known(w, a)
    ensures Known(w', a)
  {
    MoveKnown(w, w', b, w'.handlers[b], a);
  }

  lemma LookUpKnown(w: World, w': World, b: AgentId, found: Option<SessionId>, a: AgentId)
    requires HasAgent(w, b) && AgentSideEnabled(w, b, LookUp(found)) && w' == LookUpNext(w, b, found) && Known(w, a)
    ensures Known(w', a)
  {
    MoveKnown(w, w', b, w'.handlers[b], a);
  }

  lemma SideKnown(w: World, w': World, b: AgentId, side: AgentSide, a: AgentId)
    requires HasAgent(w, b) && AgentSideEnabled(w, b, side) && w' == AgentSideNext(w, b, side) && Known(w, a)
    requires a in w.handlers && a != b && w.handlers[a].session.Some? ==> w.handlers[a].session != w.handlers[b].session
    ensures Known(w', a)
  {
    var h := w.handlers[b];
    match side {
      case Own(own) => OwnKnown(w, w', b, own, OwnNext(ConnOf(w, b), own), a);
      case Register(found) => RegisterKnown(w, w', b, found, h.pc.hello, a);
      case Attach => AttachKnown(w, w', b, h.session.value, a);
      case ClearAgent => ClearKnown(w, w', b, h.session.value, a);
      case LookUp(found) => LookUpKnown(w, w', b, found, a);
      case Deliver => MoveKnown(w, w', b, AfterRouting(h), a);
      case DeliverLost => MoveKnown(w, w', b, h.(pc := Disconnecting), a);
      case DropStream => MoveKnown(w, w', b, h.(pc := Serving), a);
    }
  }

  lemma OpEffectKnown(w: World, w': World, s: StreamId, a: AgentId)
    requires OpEffect(w, w', s) && Known(w, a)
    ensures Known(w', a)
  {
    KnownKept(w, w', a, None);
  }

  lemma OpSideKnown(w: World, w': World, s: StreamId, side: OperatorSide, a: AgentId)
    requires HasOp(w, s) && OperatorSideEnabled(w, s, side) && HandlerPcOk(w.ops[s], s)
          && w' == OperatorSideNext(w, s, side)
    requires Known(w, a)
    ensures Known(w', a)
  {
    OperatorHasEffect(w, w', s, side);
    OpEffectKnown(w, w', s, a);
  }

  lemma TableKnown(w: World, w': World, st: Step, a: AgentId)
    requires Enabled(w, st) && IsTableStep(st) && w' == Next(w, st) && Known(w, a)
    requires a in w.handlers && w.handlers[a].session.Some? ==> w.handlers[a].session.value in w.births
    ensures Known(w', a)
  {
    match st {
      case CreateSession(sid, _, _, _, _) => KnownKept(w, w', a, Some(sid));
      case Tick(_) => KnownKept(w, w', a, None);
      case EndSession(_) => KnownKept(w, w', a, None);
      case _ =>
    }
  }

  /** Two registered agents have different sessions. */
  lemma SessionsDiffer(w: World, a: AgentId, b: AgentId)
    requires Inv(w) && HasAgent(w, a) && HasAgent(w, b) && a != b && w.handlers[a].session.Some?
    ensures w.handlers[a].session != w.handlers[b].session
  {
    assert AgInv(w, a) && AgInv(w, b);
  }

  /** What a step needs to know of agent `a` to keep it known. */
  ghost predicate KnownReady(w: World, st: Step, a: AgentId) {
    && (a in w.handlers && w.handlers[a].session.Some? ==> w.handlers[a].session.value in w.births)
    && (st.ByAgent? && HasAgent(w, st.agent) && a in w.handlers && a != st.agent && w.handlers[a].session.Some? ==>
          w.handlers[a].session != w.handlers[st.agent].session)
    && (st.ByOperator? && HasOp(w, st.stream) ==> HandlerPcOk(w.ops[st.stream], st.stream))
  }

  lemma InvKnownReady(w: World, st: Step, a: AgentId)
    requires Inv(w)
    ensures KnownReady(w, st, a)
  {
    if a in w.handlers {
      assert AgInv(w, a);
      if st.ByAgent? && HasAgent(w, st.agent) && a != st.agent && w.handlers[a].session.Some? {
        SessionsDiffer(w, a, st.agent);
      }
    }
    if st.ByOperator? && HasOp(w, st.stream) {
      assert OpInv(w, st.stream);
    }
  }

  lemma StepKnown(w: World, w': World, st: Step, a: AgentId)
    requires KnownReady(w, st, a) && Enabled(w, st) && w' == Next(w, st) && Known(w, a)
    ensures Known(w', a)
  {
    match st {
      case ByAgent(b, side) => SideKnown(w, w', b, side, a);
      case ByOperator(s, side) => OpSideKnown(w, w', s, side, a);
      case _ => TableKnown(w, w', st, a);
    }
  }

  lemma {:induction false} RunKnown(run: seq<World>, steps: seq<Step>, i: nat, a: AgentId)
    requires IsRun(run, steps) && i < |run|
    ensures Known(run[i], a)
  {
    if i > 0 {
      RunKnown(run, steps, i - 1, a);
      RunKeeps(run, steps, i - 1);
      assert Follows(run, steps, i - 1);
      InvKnownReady(run[i - 1], steps[i - 1], a);
      StepKnown(run[i - 1], run[i], steps[i - 1], a);
    }
  }

  lemma ReachableKnown(w: World, a: AgentId)
    requires Reachable(w)
    ensures Known(w, a)
  {
    var run, steps :| IsRun(run, steps) && w in run;
    var i :| 0 <= i < |run| && run[i] == w;
    RunKnown(run, steps, i, a);
  }

  /** The agent a session's sender belongs to is the recorded user of its code, and is connected. */
  lemma SenderIsUser(w: World, sid: SessionId, a: AgentId)
    requires Reachable(w) && sid in w.sessions && w.sessions[sid].agent == Some(a)
    ensures HasAgent(w, a) && IsLive(w.handlers[a]) && sid in w.births && w.births[sid].usedBy == Some(a)
  {
    ReachableInv(w);
    assert SessionInv(w, sid);
    RegisteredIsUser(w, a, sid);
  }

  /** The table's own fields agree with the phase. */
  lemma TableMatchesPhase(w: World, sid: SessionId)
    requires Reachable(w) && sid in w.sessions
    ensures sid in w.births
    ensures w.sessions[sid].consumed <==> !PhaseOf(w, sid).Fresh?
    ensures w.sessions[sid].agent == if PhaseOf(w, sid).Attached? then w.births[sid].usedBy else None
  {
    SessionOfBirth(w, sid);
    if w.sessions[sid].agent.Some? {
      SenderIsUser(w, sid, w.sessions[sid].agent.value);
    } else if w.births[sid].usedBy.Some? {
      ReachableInv(w);
      UserExists(w, sid, w.births[sid].usedBy.value);
      ReachableKnown(w, w.births[sid].usedBy.value);
    }
  }

  lemma SessionOfBirth(w: World, sid: SessionId)
    requires Reachable(w) && sid in w.sessions
    ensures sid in w.births
    ensures w.sessions[sid].consumed <==> w.births[sid].usedBy.Some?
  {
    ReachableInv(w);
    assert SessionInv(w, sid);
  }

  /** A session never moves back to an earlier phase. */
  lemma PhaseOnlyAdvances(run: seq<World>, steps: seq<Step>, i: nat, j: nat, sid: SessionId)
    requires IsRun(run, steps) && i <= j < |run| && sid in run[i].births
    ensures sid in run[j].births
    ensures Rank(PhaseOf(run[i], sid)) <= Rank(PhaseOf(run[j], sid))
  {
    RunForward(run, steps, i, j, 0, 0);
    if run[i].births[sid].usedBy.Some? {
      UserPhaseAdvances(run, steps, i, j, sid, run[i].births[sid].usedBy.value);
    }
  }

  lemma UserHasHandler(w: World, sid: SessionId, a: AgentId)
    requires Inv(w) && sid in w.births && w.births[sid].usedBy == Some(a)
    ensures HasAgent(w, a) && w.handlers[a].session == Some(sid)
  {
    assert BirthInv(w, sid);
  }

  lemma UserExists(w: World, sid: SessionId, a: AgentId)
    requires Inv(w) && sid in w.births && w.births[sid].usedBy == Some(a)
    ensures HasAgent(w, a) && w.handlers[a].session == Some(sid)
    ensures Rank(PhaseOf(w, sid)) == Stage(w.handlers[a])
  {
    UserHasHandler(w, sid, a);
  }

  lemma UserPhaseAdvances(run: seq<World>, steps: seq<Step>, i: nat, j: nat, sid: SessionId, a: AgentId)
    requires IsRun(run, steps) && i <= j < |run| && sid in run[i].births && run[i].births[sid].usedBy == Some(a)
    ensures sid in run[j].births
    ensures Rank(PhaseOf(run[i], sid)) <= Rank(PhaseOf(run[j], sid))
  {
    RunForward(run, steps, i, j, a, 0);
    RunKeeps(run, steps, i);
    RunKeeps(run, steps, j);
    UserExists(run[i], sid, a);
    UserExists(run[j], sid, a);
  }

  /** `clear_agent` does not check whose sender it clears; what it clears is always its own handler's. */
  lemma ClearsExactlyItsOwn(w: World, a: AgentId)
    requires Reachable(w) && HasAgent(w, a) && AgentSideEnabled(w, a, ClearAgent)
    ensures var sid := w.handlers[a].session.value;
      sid in w.sessions ==> w.sessions[sid].agent == Some(a)
    ensures var w' := AgentSideNext(w, a, ClearAgent);
      forall sid :: sid in w.sessions && w.sessions[sid].agent != Some(a) ==>
        sid in w'.sessions && w'.sessions[sid] == w.sessions[sid]
  {
    ReachableKnown(w, a);
  }
}
