/** Steps by which agents register and attach, streams are admitted and inserted, and peers appear. */
module JoinSteps {
  import opened Wire
  import opened Pipes
  import opened AgentProcess
  import opened OperatorStream
  import opened RelayRules
  import opened RelaySystem
  import opened RelayInvariant
  import opened TableSteps
  import opened SessionSteps

  /* ---------- registration ---------- */

  ghost predicate Registers(w: World, w': World, a: AgentId, sid: SessionId, session: Session, birth: Birth,
                            h: AgentHandler) {
    && HasAgent(w, a) && w.handlers[a].pc.Joining? && w.handlers[a].pc.hello.AgentHello?
    && sid in w.sessions && sid in w.births
    && JoinRefusal(w.sessions[sid], w.now, w.handlers[a].pc.hello.exposes).None?
    && session == Joined(w.sessions[sid], w.handlers[a].pc.hello.device)
    && birth == w.births[sid].(usedBy := Some(a), usedAt := w.now)
    && h == w.handlers[a].(pc := Greeting, session := Some(sid))
    && w' == w.(handlers := w.handlers[a := h], sessions := w.sessions[sid := session],
                births := w.births[sid := birth])
  }

  lemma RegisterBirths(w: World, w': World, a: AgentId, sid: SessionId, session: Session, birth: Birth, h: AgentHandler)
    requires SessionInv(w, sid) && Registers(w, w', a, sid, session, birth, h)
    ensures BirthsKeep(w.births, w'.births)
  {
  }

  lemma RegisterMaps(w: World, w': World, a: AgentId, sid: SessionId, session: Session, birth: Birth, h: AgentHandler)
    requires Registers(w, w', a, sid, session, birth, h)
    ensures MapsShrink(w.ops, w.sessions, w'.sessions)
  {
    forall r | InSomeMap(w'.sessions, r) ensures InSomeMap(w.sessions, r) {
      var other :| other in w'.sessions && r in w'.sessions[other].streams;
      assert other in w.sessions && r in w.sessions[other].streams;
    }
  }

  lemma RegisterSess(w: World, w': World, a: AgentId, sid: SessionId, session: Session, birth: Birth, h: AgentHandler)
    requires SessInv(w) && Domains(w) && Registers(w, w', a, sid, session, birth, h) && ServePcOk(w.handlers[a])
    ensures SessInv(w') && Domains(w')
  {
    forall other | other in w'.sessions ensures SessionInv(w', other) {
      assert SessionInv(w, other);
      RegisterSession(w, w', a, sid, session, birth, h, other);
    }
    forall other | other in w'.closers ensures CloserInv(w', other) {
      assert CloserInv(w, other);
      RegisterCloser(w, w', a, sid, session, birth, h, other);
    }
    forall other | other in w'.births ensures BirthInv(w', other) {
      assert BirthInv(w, other);
      RegisterBirth(w, w', a, sid, session, birth, h, other);
    }
  }

  lemma RegisterCloser(w: World, w': World, a: AgentId, sid: SessionId, session: Session, birth: Birth,
                       h: AgentHandler, other: SessionId)
    requires CloserInv(w, other) && Registers(w, w', a, sid, session, birth, h)
    ensures CloserInv(w', other)
  {
  }

  lemma RegisterBirth(w: World, w': World, a: AgentId, sid: SessionId, session: Session, birth: Birth,
                      h: AgentHandler, other: SessionId)
    requires BirthInv(w, other) && Registers(w, w', a, sid, session, birth, h) && ServePcOk(w.handlers[a])
    ensures BirthInv(w', other)
  {
  }

  lemma RegisterSession(w: World, w': World, a: AgentId, sid: SessionId, session: Session, birth: Birth,
                        h: AgentHandler, other: SessionId)
    requires SessionInv(w, other) && Registers(w, w', a, sid, session, birth, h) && ServePcOk(w.handlers[a])
    ensures SessionInv(w', other)
  {
  }

  lemma RegisterOwn(w: World, w': World, a: AgentId, sid: SessionId, session: Session, birth: Birth, h: AgentHandler)
    requires AgInv(w, a) && SessionInv(w, sid) && Registers(w, w', a, sid, session, birth, h)
    ensures AgInv(w', a)
  {
    OffersAccepted(w.sessions[sid].allowed, w.handlers[a].pc.hello.exposes);
  }

  lemma RegisterAgents(w: World, w': World, a: AgentId, sid: SessionId, session: Session, birth: Birth, h: AgentHandler)
    requires AgentsInv(w) && SessionInv(w, sid) && Registers(w, w', a, sid, session, birth, h)
    ensures AgentsInv(w')
  {
    RegisterBirths(w, w', a, sid, session, birth, h);
    RegisterMaps(w, w', a, sid, session, birth, h);
    forall b | b in w'.agents ensures AgInv(w', b) {
      assert AgInv(w, b);
      if b == a { RegisterOwn(w, w', a, sid, session, birth, h); } else { AgFrame(w, w', b); }
    }
  }

  /** Nobody links to a handler that is not attached. */
  lemma UnattachedUnlinked(w: World, a: AgentId, s: StreamId)
    requires OpInv(w, s) && HasAgent(w, a) && !w.handlers[a].attached
    ensures w.ops[s].agent != Some(a)
  {
  }

  lemma RegisterOps(w: World, w': World, a: AgentId, sid: SessionId, session: Session, birth: Birth, h: AgentHandler)
    requires OpsInv(w) && SessionInv(w, sid) && Registers(w, w', a, sid, session, birth, h) && ServePcOk(w.handlers[a])
    ensures OpsInv(w')
  {
    RegisterBirths(w, w', a, sid, session, birth, h);
    forall s | s in w'.ops ensures OpInv(w', s) {
      assert OpInv(w, s);
      UnattachedUnlinked(w, a, s);
      OpFrame(w, w', s);
    }
  }

  lemma RegisterKeeps(w: World, w': World, a: AgentId, sid: SessionId, session: Session, birth: Birth, h: AgentHandler)
    requires Inv(w) && Registers(w, w', a, sid, session, birth, h)
    ensures Inv(w')
  {
    assert AgInv(w, a) && SessionInv(w, sid);
    RegisterSess(w, w', a, sid, session, birth, h);
    RegisterAgents(w, w', a, sid, session, birth, h);
    RegisterOps(w, w', a, sid, session, birth, h);
  }

  /* ---------- attachment ---------- */

  ghost predicate Attaches(w: World, w': World, a: AgentId, sid: SessionId, h: AgentHandler, p: Pipe) {
    && HasAgent(w, a) && w.handlers[a].pc.Attaching? && w.handlers[a].session == Some(sid) && sid in w.sessions
    && h == w.handlers[a].(pc := Serving, attached := true)
    && p == w.toAgent[a].Start()
    && w' == w.(handlers := w.handlers[a := h], toAgent := w.toAgent[a := p], sessions := WithAgent(w.sessions, sid, a))
  }

  lemma AttachSess(w: World, w': World, a: AgentId, sid: SessionId, h: AgentHandler, p: Pipe)
    requires SessInv(w) && Domains(w) && Attaches(w, w', a, sid, h, p)
    ensures SessInv(w') && Domains(w')
  {
    forall other | other in w'.sessions ensures SessionInv(w', other) {
      assert SessionInv(w, other);
      AttachSession(w, w', a, sid, h, p, other);
    }
    forall other | other in w'.closers ensures CloserInv(w', other) {
      assert CloserInv(w, other);
      AttachOthers(w, w', a, sid, h, p, other);
    }
    forall other | other in w'.births ensures BirthInv(w', other) {
      assert BirthInv(w, other);
      AttachOthers(w, w', a, sid, h, p, other);
    }
  }

  lemma AttachOthers(w: World, w': World, a: AgentId, sid: SessionId, h: AgentHandler, p: Pipe, other: SessionId)
    requires Attaches(w, w', a, sid, h, p)
    ensures CloserInv(w, other) ==> CloserInv(w', other)
    ensures BirthInv(w, other) ==> BirthInv(w', other)
  {
  }

  lemma AttachSession(w: World, w': World, a: AgentId, sid: SessionId, h: AgentHandler, p: Pipe, other: SessionId)
    requires SessionInv(w, other) && Attaches(w, w', a, sid, h, p)
    ensures SessionInv(w', other)
  {
  }

  lemma AttachMaps(w: World, w': World, a: AgentId, sid: SessionId, h: AgentHandler, p: Pipe)
    requires Attaches(w, w', a, sid, h, p)
    ensures MapsShrink(w.ops, w.sessions, w'.sessions)
  {
    forall r | InSomeMap(w'.sessions, r) ensures InSomeMap(w.sessions, r) {
      var other :| other in w'.sessions && r in w'.sessions[other].streams;
      assert other in w.sessions && r in w.sessions[other].streams;
    }
  }

  lemma AttachOwn(w: World, w': World, a: AgentId, sid: SessionId, h: AgentHandler, p: Pipe)
    requires AgInv(w, a) && Attaches(w, w', a, sid, h, p)
    ensures AgInv(w', a)
  {
    assert p.Sent() == w.toAgent[a].Sent();
  }

  lemma AttachOther(w: World, w': World, a: AgentId, sid: SessionId, h: AgentHandler, p: Pipe, b: AgentId)
    requires AgInv(w, b) && b != a && Attaches(w, w', a, sid, h, p) && MapsShrink(w.ops, w.sessions, w'.sessions)
    ensures AgInv(w', b)
  {
    AgFrame(w, w', b);
  }

  lemma AttachAgents(w: World, w': World, a: AgentId, sid: SessionId, h: AgentHandler, p: Pipe)
    requires AgentsInv(w) && Attaches(w, w', a, sid, h, p)
    ensures AgentsInv(w')
  {
    AttachMaps(w, w', a, sid, h, p);
    forall b | b in w'.agents ensures AgInv(w', b) {
      assert AgInv(w, b);
      if b == a { AttachOwn(w, w', a, sid, h, p); } else { AttachOther(w, w', a, sid, h, p, b); }
    }
  }

  lemma AttachOps(w: World, w': World, a: AgentId, sid: SessionId, h: AgentHandler, p: Pipe)
    requires OpsInv(w) && Attaches(w, w', a, sid, h, p) && ServePcOk(w.handlers[a])
    ensures OpsInv(w')
  {
    forall s | s in w'.ops ensures OpInv(w', s) {
      assert OpInv(w, s);
      UnattachedUnlinked(w, a, s);
      OpFrame(w, w', s);
    }
  }

  lemma AttachKeeps(w: World, w': World, a: AgentId, sid: SessionId, h: AgentHandler, p: Pipe)
    requires Inv(w) && Attaches(w, w', a, sid, h, p)
    ensures Inv(w')
  {
    assert AgInv(w, a);
    AttachSess(w, w', a, sid, h, p);
    AttachAgents(w, w', a, sid, h, p);
    AttachOps(w, w', a, sid, h, p);
  }

  /* ---------- admission and insertion of a stream ---------- */

  /** A stream that nobody opened has carried nothing on any hop of its future agent. */
  lemma FreshLink(w: World, s: StreamId, a: AgentId)
    requires AgInv(w, a) && s in w.ops && w.ops[s].agent.None? && !w.ops[s].started
    ensures Payload(w.toAgent[a].Sent(), Some(s)) == []
    ensures Payload(w.agents[a].up.delivered, Some(s)) == []
    ensures Payload(w.handlers[a].dropped, Some(s)) == []
    ensures ChunkOf(w.handlers[a].hand, Some(s)) == []
  {
    var p, ag, h := w.toAgent[a], w.agents[a], w.handlers[a];
    NotYetOpened(w, s, a);
    NoDataBeforeOpen(p.Sent(), s);
    DownGrammarPrefix(p.Sent(), |p.delivered|);
    assert p.Sent()[..|p.delivered|] == p.delivered;
    SentByNobody(ag, p.delivered, s);
    forall m | m in ag.up.delivered ensures !About(m, s) {
      assert m in ag.up.Sent();
    }
    NoPayload(ag.up.delivered, s);
    NoPayload(h.dropped, s);
  }

  lemma CheckedLinked(w: World, s: StreamId, a: AgentId, op: Operator)
    requires AgInv(w, a) && OpInv(w, s) && w.ops[s].pc.Checking? && w.handlers[a].attached
    requires w.handlers[a].session == Some(op.session)
    requires op == w.ops[s].(pc := Inserting, agent := Some(a), checkedAt := op.checkedAt)
    ensures OpLocal(op, s, w.toOp[s]) && Linked(op, s, w.toOp[s], w.handlers[a], w.agents[a], w.toAgent[a])
  {
    FreshLink(w, s, a);
  }

  lemma CheckedFits(w: World, s: StreamId, a: AgentId, op: Operator)
    requires OpInv(w, s) && w.ops[s].pc.Checking? && AgInv(w, a) && SessionInv(w, op.session)
    requires OpenRefusal(w.sessions, op.session, op.target, w.now).None? && w.sessions[op.session].agent == Some(a)
    requires op == w.ops[s].(pc := Inserting, agent := Some(a), checkedAt := w.now)
    ensures OpFits(w, s, op, w.toOp[s])
  {
    CheckedLinked(w, s, a, op);
  }

  /** Only the handler's own record changes. */
  lemma OpRecordKeeps(w: World, w': World, s: StreamId, op: Operator)
    requires Inv(w) && s in w.ops && s in w.toOp && OpGrows(w.ops[s], op) && OpFits(w, s, op, w.toOp[s])
    requires w' == w.(ops := w.ops[s := op])
    ensures Inv(w')
  {
    assert w.toOp == w.toOp[s := w.toOp[s]];
    OpStep(w, w', s, op, w.toOp[s]);
  }

  /** A live session's agent exists. */
  lemma SessionAgent(w: World, sid: SessionId, a: AgentId)
    requires Inv(w) && sid in w.sessions && w.sessions[sid].agent == Some(a)
    ensures SessionInv(w, sid) && AgInv(w, a)
  {
    assert SessionInv(w, sid);
  }

  lemma CheckKeeps(w: World, w': World, s: StreamId, a: AgentId, op: Operator)
    requires Inv(w) && s in w.ops && w.ops[s].pc.Checking?
    requires OpenRefusal(w.sessions, op.session, op.target, w.now).None? && w.sessions[op.session].agent == Some(a)
    requires op == w.ops[s].(pc := Inserting, agent := Some(a), checkedAt := w.now)
    requires w' == w.(ops := w.ops[s := op])
    ensures Inv(w')
  {
    SessionAgent(w, op.session, a);
    assert OpInv(w, s);
    CheckedFits(w, s, a, op);
    OpRecordKeeps(w, w', s, op);
  }

  lemma InsertedFits(w: World, s: StreamId, op: Operator)
    requires OpInv(w, s) && w.ops[s].pc.Inserting? && op == w.ops[s].(pc := Opening, inserted := true, late := op.late)
    ensures OpFits(w, s, op, w.toOp[s]) && !op.started
  {
  }

  lemma InsertKeeps(w: World, w': World, s: StreamId, op: Operator)
    requires Inv(w) && s in w.ops && w.ops[s].pc.Inserting? && op.session in w.sessions
    requires op == w.ops[s].(pc := Opening, inserted := true, late := op.late)
    requires w' == w.(ops := w.ops[s := op], sessions := WithStream(w.sessions, op.session, s))
    ensures Inv(w')
  {
    assert OpInv(w, s);
    InsertedFits(w, s, op);
    var w1 := w.(ops := w.ops[s := op]);
    OpRecordKeeps(w, w1, s, op);
    InsertIntoMap(w1, w', s, op);
  }

  lemma InsertIntoMap(w: World, w': World, s: StreamId, op: Operator)
    requires Inv(w) && s in w.ops && op == w.ops[s] && op.inserted && !op.started && op.session in w.sessions
    requires w' == w.(sessions := WithStream(w.sessions, op.session, s))
    ensures Inv(w')
  {
    AddStreamKeeps(w, w', op.session, s);
  }

  /* ---------- new peers ---------- */

  ghost predicate Starts(w: World, w': World, a: AgentId, ag: Agent, h: AgentHandler) {
    && a !in w.agents && a !in w.handlers && a !in w.toAgent
    && ag == NewAgent(ag.code, ag.device, ag.exposes) && h == AgentHandler(AwaitingHello, None, false, None, [])
    && w' == w.(agents := w.agents[a := ag], handlers := w.handlers[a := h], toAgent := w.toAgent[a := NewPipe()])
  }

  lemma StartSess(w: World, w': World, a: AgentId, ag: Agent, h: AgentHandler)
    requires SessInv(w) && Domains(w) && Starts(w, w', a, ag, h)
    ensures SessInv(w') && Domains(w')
  {
    SessFrame(w, w');
  }

  lemma StartOwn(w: World, w': World, a: AgentId, ag: Agent, h: AgentHandler)
    requires Starts(w, w', a, ag, h)
    ensures AgInv(w', a)
  {
    NewAgentOk(ag.code, ag.device, ag.exposes);
    assert NewPipe().Sent() == [];
  }

  lemma StartAgents(w: World, w': World, a: AgentId, ag: Agent, h: AgentHandler)
    requires AgentsInv(w) && Starts(w, w', a, ag, h)
    ensures AgentsInv(w')
  {
    forall b | b in w'.agents ensures AgInv(w', b) {
      if b == a { StartOwn(w, w', a, ag, h); } else { assert AgInv(w, b); AgFrame(w, w', b); }
    }
  }

  lemma StartOps(w: World, w': World, a: AgentId, ag: Agent, h: AgentHandler)
    requires OpsInv(w) && Starts(w, w', a, ag, h)
    ensures OpsInv(w')
  {
    forall s | s in w'.ops ensures OpInv(w', s) {
      assert OpInv(w, s);
      StartOp(w, w', a, ag, h, s);
    }
  }

  lemma StartOp(w: World, w': World, a: AgentId, ag: Agent, h: AgentHandler, s: StreamId)
    requires OpInv(w, s) && Starts(w, w', a, ag, h)
    ensures OpInv(w', s)
  {
    OpFrame(w, w', s);
  }

  lemma StartKeeps(w: World, w': World, a: AgentId, ag: Agent, h: AgentHandler)
    requires Inv(w) && Starts(w, w', a, ag, h)
    ensures Inv(w')
  {
    StartSess(w, w', a, ag, h);
    StartAgents(w, w', a, ag, h);
    StartOps(w, w', a, ag, h);
  }

  ghost predicate OpensStream(w: World, w': World, s: StreamId, op: Operator) {
    && s == w.nextStream && op == NewOperator(op.session, op.target)
    && w' == w.(ops := w.ops[s := op], toOp := w.toOp[s := NewPipe()], nextStream := s + 1)
  }

  /** `fetch_add` never hands out an id twice. */
  lemma NextStreamIsFresh(w: World)
    requires OpsInv(w)
    ensures w.nextStream !in w.ops
  {
    assert w.nextStream in w.ops ==> OpInv(w, w.nextStream);
  }

  lemma OpenSess(w: World, w': World, s: StreamId, op: Operator)
    requires SessInv(w) && Domains(w) && OpensStream(w, w', s, op) && s !in w.ops
    ensures SessInv(w') && Domains(w')
  {
    SessFrame(w, w');
  }

  lemma OpenAgents(w: World, w': World, s: StreamId, op: Operator)
    requires AgentsInv(w) && OpensStream(w, w', s, op) && s !in w.ops
    ensures AgentsInv(w')
  {
    forall a | a in w'.agents ensures AgInv(w', a) {
      assert AgInv(w, a);
      AgFrame(w, w', a);
    }
  }

  lemma OpenOps(w: World, w': World, s: StreamId, op: Operator)
    requires OpsInv(w) && Domains(w) && OpensStream(w, w', s, op) && s !in w.ops
    ensures OpsInv(w')
  {
    forall r | r in w'.ops ensures OpInv(w', r) {
      if r == s {
        assert NewPipe().Sent() == [];
      } else {
        assert OpInv(w, r);
        OpFrame(w, w', r);
      }
    }
  }

  lemma OpenKeeps(w: World, w': World, s: StreamId, op: Operator)
    requires Inv(w) && OpensStream(w, w', s, op)
    ensures Inv(w')
  {
    NextStreamIsFresh(w);
    OpenSess(w, w', s, op);
    OpenAgents(w, w', s, op);
    OpenOps(w, w', s, op);
  }
}
