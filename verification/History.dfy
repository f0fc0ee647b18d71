/** What must have happened earlier in a run: every stream and every used code has its certificate. */
module History {
  import opened Wire
  import opened OperatorStream
  import opened RelayRules
  import opened RelaySystem
  import opened RelayInvariant
  import opened Invariance
  import opened Evolution
  import opened Delivery
  import opened SingleUse
  import Forwarding

  ghost predicate HasNoAgent(w: World, s: StreamId) {
    s in w.ops ==> w.ops[s].agent.None?
  }

  ghost predicate Unused(w: World, sid: SessionId) {
    sid in w.births ==> w.births[sid].usedBy.None?
  }

  /** A stream is linked to an agent, and a code is used, only by the step that grants it. */
  ghost predicate Certified(w: World, w': World, s: StreamId, sid: SessionId) {
    && (HasNoAgent(w, s) && !HasNoAgent(w', s) ==>
        AdmittedIn(w, s, w'.ops[s].agent.value) && w'.ops[s].checkedAt == w.now)
    && (Unused(w, sid) && !Unused(w', sid) ==>
          GrantedIn(w, sid, w'.births[sid].usedBy.value) && w'.births[sid].usedAt == w.now)
  }

  lemma TableCertified(w: World, w': World, st: Step, s: StreamId, sid: SessionId)
    requires Enabled(w, st) && IsTableStep(st) && w' == Next(w, st)
    ensures Certified(w, w', s, sid)
  {
  }

  lemma AgentCertified(w: World, w': World, b: AgentId, side: AgentSide, s: StreamId, sid: SessionId)
    requires AgInv(w, b) && AgentSideEnabled(w, b, side) && w' == AgentSideNext(w, b, side)
    requires side.Register? && side.found.Some? ==> SessionInv(w, side.found.value)
    ensures Certified(w, w', s, sid)
  {
    SideHasEffect(w, w', b, side);
    SideEffectCertified(w, w', b, s, sid);
  }

  lemma SideEffectCertified(w: World, w': World, b: AgentId, s: StreamId, sid: SessionId)
    requires SideEffect(w, w', b)
    ensures Certified(w, w', s, sid)
  {
  }

  lemma OpEffectCertified(w: World, w': World, r: StreamId, s: StreamId, sid: SessionId)
    requires OpEffect(w, w', r)
    ensures Certified(w, w', s, sid)
  {
  }

  lemma OperatorCertified(w: World, w': World, r: StreamId, side: OperatorSide, s: StreamId, sid: SessionId)
    requires HasOp(w, r) && HandlerPcOk(w.ops[r], r) && OperatorSideEnabled(w, r, side)
          && w' == OperatorSideNext(w, r, side)
    ensures Certified(w, w', s, sid)
  {
    OperatorHasEffect(w, w', r, side);
    OpEffectCertified(w, w', r, s, sid);
  }

  lemma StepCertified(w: World, w': World, st: Step, s: StreamId, sid: SessionId)
    requires Ready(w, st) && Enabled(w, st) && w' == Next(w, st)
    ensures Certified(w, w', s, sid)
  {
    match st {
      case ByAgent(b, side) => AgentCertified(w, w', b, side, s, sid);
      case ByOperator(r, side) => OperatorCertified(w, w', r, side, s, sid);
      case _ => TableCertified(w, w', st, s, sid);
    }
  }

  lemma CertifiedAt(run: seq<World>, steps: seq<Step>, i: nat, s: StreamId, sid: SessionId)
    requires IsRun(run, steps) && i < |steps|
    ensures Certified(run[i], run[i + 1], s, sid)
  {
    RunKeeps(run, steps, i);
    assert Follows(run, steps, i);
    InvReady(run[i], steps[i]);
    StepCertified(run[i], run[i + 1], steps[i], s, sid);
  }

  /** In some state before `j`, stream `s` was admitted with the agent, session, target and time it has in `op`. */
  ghost predicate AdmittedBefore(run: seq<World>, j: nat, s: StreamId, op: Operator)
    requires j < |run|
  {
    op.agent.Some? &&
    exists i :: 0 <= i < j && AdmittedIn(run[i], s, op.agent.value)
      && op.session == run[i].ops[s].session && op.target == run[i].ops[s].target && op.checkedAt == run[i].now
  }

  /** Every stream linked to an agent was admitted in an earlier state of the run: one in which its
      session existed, had not expired, allowed the target, and had that agent attached. */
  lemma {:induction false} AdmissionHappened(run: seq<World>, steps: seq<Step>, j: nat, s: StreamId)
    requires IsRun(run, steps) && j < |run| && !HasNoAgent(run[j], s)
    ensures AdmittedBefore(run, j, s, run[j].ops[s])
  {
    assert j > 0;
    CertifiedAt(run, steps, j - 1, s, "");
    RunForward(run, steps, j - 1, j, 0, s);
    if !HasNoAgent(run[j - 1], s) {
      AdmissionHappened(run, steps, j - 1, s);
      var i :| 0 <= i < j - 1 && AdmittedIn(run[i], s, run[j - 1].ops[s].agent.value)
        && run[j - 1].ops[s].session == run[i].ops[s].session && run[j - 1].ops[s].target == run[i].ops[s].target
        && run[j - 1].ops[s].checkedAt == run[i].now;
      assert AdmittedIn(run[i], s, run[j].ops[s].agent.value);
    } else {
      assert AdmittedIn(run[j - 1], s, run[j].ops[s].agent.value);
    }
  }

  /** In some state before `j`, the use recorded in `birth` was granted. */
  ghost predicate GrantedBefore(run: seq<World>, j: nat, sid: SessionId, birth: Birth)
    requires j < |run|
  {
    birth.usedBy.Some? &&
    exists i :: 0 <= i < j && GrantedIn(run[i], sid, birth.usedBy.value) && birth.usedAt == run[i].now
  }

  /** Every used code was granted in an earlier state of the run, to a hello carrying that code and
      offers the session allowed, before the session expired and while the code was unused. */
  lemma {:induction false} GrantHappened(run: seq<World>, steps: seq<Step>, j: nat, sid: SessionId)
    requires IsRun(run, steps) && j < |run| && !Unused(run[j], sid)
    ensures GrantedBefore(run, j, sid, run[j].births[sid])
  {
    assert j > 0;
    CertifiedAt(run, steps, j - 1, 0, sid);
    RunForward(run, steps, j - 1, j, 0, 0);
    if Unused(run[j - 1], sid) {
      assert GrantedIn(run[j - 1], sid, run[j].births[sid].usedBy.value);
    } else {
      GrantHappened(run, steps, j - 1, sid);
      var i :| 0 <= i < j - 1 && GrantedIn(run[i], sid, run[j - 1].births[sid].usedBy.value)
        && run[j - 1].births[sid].usedAt == run[i].now;
      assert GrantedIn(run[i], sid, run[j].births[sid].usedBy.value);
    }
  }

  /* ---------- the two admissions ---------- */

  /** The operator handler's first lock section admits a stream exactly if its session exists and has not
      expired, some allowed tunnel has the target's name, and an agent is attached; that agent is the one
      the stream is opened at. Otherwise the handler returns. */
  lemma CheckAdmitsExactly(w: World, w': World, s: StreamId)
    requires HasOp(w, s) && w.ops[s].pc.Checking? && w' == CheckNext(w, s)
    ensures s in w'.ops
    ensures var op, op' := w.ops[s], w'.ops[s];
      && (op'.pc.Inserting? <==> MayOpen(w.sessions, op.session, op.target, w.now))
      && (op'.pc.Inserting? ==> op'.agent == w.sessions[op.session].agent && op'.checkedAt == w.now)
      && (!op'.pc.Inserting? ==> op'.pc.Gone? && op'.agent == op.agent)
  {
    OpenExactly(w.sessions, w.ops[s].session, w.ops[s].target, w.now);
  }

  /** Registration grants the code exactly if some session has it, has not expired, was not joined before
      and allows what is offered; otherwise the hello is refused for the first reason that applies. */
  lemma RegisterGrantsExactly(w: World, w': World, a: AgentId, found: Option<SessionId>)
    requires HasAgent(w, a) && AgentSideEnabled(w, a, Register(found)) && w' == AgentSideNext(w, a, Register(found))
    ensures a in w'.handlers
    ensures var hello := w.handlers[a].pc.hello;
      && (w'.handlers[a].pc.Greeting? <==> found.Some? && MayJoin(w.sessions[found.value], w.now, hello.exposes))
      && (w'.handlers[a].pc.Greeting? ==>
            w'.handlers[a].session == found && found.value in w'.sessions
            && Consumes(w.sessions[found.value], w'.sessions[found.value], hello.device))
      && (!w'.handlers[a].pc.Greeting? ==>
            w'.handlers[a].pc.Rejecting? && w'.sessions == w.sessions
            && match found
               case None => w'.handlers[a].pc.reason.CodeNotFound?
               case Some(sid) => JoinFails(w.sessions[sid], w.now, hello.exposes, w'.handlers[a].pc.reason))
  {
    if found.Some? {
      JoinExactly(w.sessions[found.value], w.now, w.handlers[a].pc.hello.exposes);
    }
  }

  /** A connection goes on to registration exactly if its first message is a hello of the one protocol. */
  lemma HelloAdmitsExactly(h: AgentHandler, m: WireMessage)
    ensures FirstFrame(h, m).pc.Joining? <==> m.AgentHello? && m.protocol == "relaykit.v0"
    ensures FirstFrame(h, m).pc.Joining? ==> FirstFrame(h, m).pc.hello == m
    ensures !FirstFrame(h, m).pc.Joining? ==> FirstFrame(h, m).pc.Ended?
  {
  }

  lemma RefusedWasSilent(w: World, a: AgentId)
    requires Reachable(w) && HasAgent(w, a) && w.handlers[a].pc.Rejecting?
    ensures w.toAgent[a].Sent() == []
  {
    ReachableInv(w);
    assert AgInv(w, a);
  }

  lemma RefusalSent(c: Conn)
    requires OwnEnabled(c, Reject) && c.p.Sent() == []
    ensures OwnNext(c, Reject).h.pc.Ended? && OwnNext(c, Reject).p.Sent() == [Error(RefusalText(c.h.pc.reason))]
  {
    Forwarding.DirectPipe(c.p, Error(RefusalText(c.h.pc.reason)), 0);
  }

  /** A refused agent is told why, that is all it was ever sent, and its handler is over. */
  lemma RefusalIsTold(w: World, a: AgentId)
    requires Reachable(w) && HasAgent(w, a) && w.handlers[a].pc.Rejecting?
    ensures var c := OwnNext(ConnOf(w, a), Reject);
      c.h.pc.Ended? && c.p.Sent() == [Error(RefusalText(w.handlers[a].pc.reason))]
  {
    RefusedWasSilent(w, a);
    RefusalSent(ConnOf(w, a));
  }

  /* ---------- what the certificates say about time ---------- */

  /** Every stream ever inserted was checked strictly before its session's expiry, for a target the
      session allows, towards the one agent that used the session's code. */
  lemma StreamCertificate(w: World, s: StreamId)
    requires Reachable(w) && s in w.ops && w.ops[s].inserted
    ensures var op := w.ops[s];
      && op.agent.Some? && op.session in w.births
      && var b := w.births[op.session];
      && op.checkedAt < b.createdAt + b.ttl && b.ttl >= MIN_TTL
      && FindTunnel(b.allowed, op.target).Some?
      && b.usedBy == op.agent
      && b.usedAt < b.createdAt + b.ttl
  {
    ReachableInv(w);
    InvLinks(w, s);
    RegisteredIsUser(w, w.ops[s].agent.value, w.ops[s].session);
    assert BirthInv(w, w.ops[s].session);
  }
}
