/** Steps that change the session table, route a frame to an operator, or add a peer. */
module SessionSteps {
  import opened Wire
  import opened Pipes
  import opened AgentProcess
  import opened OperatorStream
  import opened RelayRules
  import opened RelaySystem
  import opened RelayInvariant

  /* ---------- routing a frame to its operator ---------- */

  lemma DeliverLocal(h: AgentHandler, ag: Agent, p: Pipe)
    requires AgLocal(h, ag, p) && h.pc.Delivering?
    ensures AgLocal(AfterRouting(h), ag, p)
    ensures Payload(h.dropped, Some(h.pc.peer)) == []
  {
    NoPayload(h.dropped, h.pc.peer);
  }

  lemma DeliverRoutes(h: AgentHandler, ag: Agent, r: StreamId, routed: Bytes)
    requires h.pc.Delivering? && HoldsFrame(h) && StreamOf(h.hand.value) == Some(h.pc.peer)
    requires RouteHopOk(h, ag, r, routed)
    requires r == h.pc.peer ==> Payload(h.dropped, Some(r)) == []
    ensures RouteHopOk(AfterRouting(h), ag, r, if r == h.pc.peer then routed + Chunk(h.hand.value, None) else routed)
  {
    var c := Chunk(h.hand.value, None);
    if r == h.pc.peer {
      assert routed + [] + c == (routed + c) + [] + [];
    } else {
      assert routed + Payload(h.dropped, Some(r)) + [] == routed + Payload(h.dropped, Some(r));
    }
  }

  ghost predicate Delivers(w: World, w': World, a: AgentId, h: AgentHandler, out: Pipe) {
    && HasAgent(w, a) && w.handlers[a].pc.Delivering? && HoldsFrame(w.handlers[a])
    && h == AfterRouting(w.handlers[a])
    && w.handlers[a].pc.peer in w.toOp && w.toOp[w.handlers[a].pc.peer].chan.CanSend()
    && out == w.toOp[w.handlers[a].pc.peer].Send(w.handlers[a].hand.value)
    && w' == w.(handlers := w.handlers[a := h], toOp := w.toOp[w.handlers[a].pc.peer := out])
  }

  lemma DeliverLinked(op: Operator, r: StreamId, out: Pipe, h: AgentHandler, ag: Agent, p: Pipe, out': Pipe)
    requires OpLocal(op, r, out) && Linked(op, r, out, h, ag, p) && AgLocal(h, ag, p) && h.pc.Delivering?
    requires if r == h.pc.peer then out.chan.CanSend() && out' == out.Send(h.hand.value) else out' == out
    ensures OpLocal(op, r, out') && Linked(op, r, out', AfterRouting(h), ag, p)
  {
    DeliverLocal(h, ag, p);
    DeliverRoutes(h, ag, r, Payload(out.Sent(), None));
    if r == h.pc.peer {
      SendAppends(out, h.hand.value);
      PayloadAppend(out.Sent(), h.hand.value, None);
    }
  }

  lemma DeliverOps(w: World, w': World, a: AgentId, h: AgentHandler, out: Pipe, r: StreamId)
    requires AgInv(w, a) && OpInv(w, r) && Delivers(w, w', a, h, out)
    requires r == w.handlers[a].pc.peer ==> w.ops[r].agent == Some(a)
    ensures OpInv(w', r)
  {
    if w.ops[r].agent == Some(a) {
      DeliverLinked(w.ops[r], r, w.toOp[r], w.handlers[a], w.agents[a], w.toAgent[a], w'.toOp[r]);
    } else {
      OpFrame(w, w', r);
    }
  }

  lemma DeliverAgents(w: World, w': World, a: AgentId, h: AgentHandler, out: Pipe, b: AgentId)
    requires AgInv(w, a) && AgInv(w, b) && Delivers(w, w', a, h, out)
    ensures AgInv(w', b)
  {
    if b == a {
      DeliverLocal(w.handlers[a], w.agents[a], w.toAgent[a]);
    } else {
      AgFrame(w, w', b);
    }
  }

  lemma DeliverSess(w: World, w': World, a: AgentId, h: AgentHandler, out: Pipe)
    requires SessInv(w) && Domains(w) && Delivers(w, w', a, h, out)
    ensures SessInv(w') && Domains(w')
  {
    SessFrame(w, w');
  }

  /** The stream a handler routes to belongs to its own agent. */
  lemma PeerIsOwn(w: World, a: AgentId)
    requires AgInv(w, a) && w.handlers[a].pc.Delivering?
    ensures w.handlers[a].pc.peer in w.ops && w.ops[w.handlers[a].pc.peer].agent == Some(a)
  {
    AskedStarted(w.ops, a, w.toAgent[a].Sent(), w.handlers[a].pc.peer);
  }

  lemma DeliverKeeps(w: World, w': World, a: AgentId, h: AgentHandler, out: Pipe)
    requires Inv(w) && Delivers(w, w', a, h, out)
    ensures Inv(w')
  {
    assert AgInv(w, a);
    PeerIsOwn(w, a);
    DeliverSess(w, w', a, h, out);
    forall b | b in w'.agents ensures AgInv(w', b) { DeliverAgents(w, w', a, h, out, b); }
    forall r | r in w'.ops ensures OpInv(w', r) { DeliverOps(w, w', a, h, out, r); }
  }

  /* ---------- the session table ---------- */

  /** The tables change; no peer does. */
  lemma TableAgents(w: World, w': World)
    requires AgentsInv(w)
    requires w' == w.(sessions := w'.sessions, closers := w'.closers, births := w'.births, now := w'.now)
    requires MapsShrink(w.ops, w.sessions, w'.sessions) && BirthsKeep(w.births, w'.births)
    ensures AgentsInv(w')
  {
    forall a | a in w'.agents ensures AgInv(w', a) {
      assert AgInv(w, a);
      AgFrame(w, w', a);
    }
  }

  lemma TableOps(w: World, w': World)
    requires OpsInv(w) && w' == w.(sessions := w'.sessions, closers := w'.closers, births := w'.births, now := w'.now)
    requires BirthsKeep(w.births, w'.births)
    ensures OpsInv(w')
  {
    forall s | s in w'.ops ensures OpInv(w', s) {
      assert OpInv(w, s);
      OpFrame(w, w', s);
    }
  }

  /** Sessions only lose streams, agents, or their place in the table. */
  ghost predicate TableShrinks(sessions: Sessions, sessions': Sessions) {
    forall sid :: sid in sessions' ==>
      && sid in sessions
      && sessions'[sid] == sessions[sid].(agent := sessions'[sid].agent, streams := sessions'[sid].streams)
      && (sessions'[sid].agent.Some? ==> sessions'[sid].agent == sessions[sid].agent)
      && (forall s :: s in sessions'[sid].streams ==>
          s in sessions[sid].streams && sessions'[sid].streams[s] == sessions[sid].streams[s])
  }

  lemma ShrinkSess(w: World, w': World)
    requires SessInv(w) && Domains(w) && TableShrinks(w.sessions, w'.sessions) && w' == w.(sessions := w'.sessions)
    ensures SessInv(w') && Domains(w')
  {
    forall sid | sid in w'.sessions ensures SessionInv(w', sid) { assert SessionInv(w, sid); }
    forall sid | sid in w'.closers ensures CloserInv(w', sid) { assert CloserInv(w, sid); }
    forall sid | sid in w'.births ensures BirthInv(w', sid) { assert BirthInv(w, sid); }
  }

  lemma ShrinkMaps(w: World, sessions: Sessions)
    requires TableShrinks(w.sessions, sessions)
    ensures MapsShrink(w.ops, w.sessions, sessions)
  {
    forall s | InSomeMap(sessions, s) ensures InSomeMap(w.sessions, s) {
      var sid :| sid in sessions && s in sessions[sid].streams;
      assert sid in w.sessions && s in w.sessions[sid].streams;
    }
  }

  lemma ShrinkKeeps(w: World, w': World)
    requires Inv(w) && TableShrinks(w.sessions, w'.sessions) && w' == w.(sessions := w'.sessions)
    ensures Inv(w')
  {
    ShrinkSess(w, w');
    ShrinkMaps(w, w'.sessions);
    TableAgents(w, w');
    TableOps(w, w');
  }

  lemma WithoutStreamShrinks(sessions: Sessions, s: StreamId)
    ensures TableShrinks(sessions, WithoutStream(sessions, s))
    ensures !InSomeMap(WithoutStream(sessions, s), s)
  {
  }

  /** An inserted stream that is not yet started enters its session's map. */
  lemma AddStreamKeeps(w: World, w': World, sid: SessionId, s: StreamId)
    requires Inv(w) && sid in w.sessions && s in w.ops
    requires w.ops[s].inserted && !w.ops[s].started && w.ops[s].session == sid
    requires w' == w.(sessions := WithStream(w.sessions, sid, s))
    ensures Inv(w')
  {
    AddStreamSess(w, w', sid, s);
    AddStreamMaps(w, w', sid, s);
    TableAgents(w, w');
    TableOps(w, w');
  }

  lemma AddStreamSess(w: World, w': World, sid: SessionId, s: StreamId)
    requires SessInv(w) && Domains(w) && sid in w.sessions && s in w.ops
    requires w.ops[s].inserted && w.ops[s].session == sid
    requires w' == w.(sessions := WithStream(w.sessions, sid, s))
    ensures SessInv(w') && Domains(w')
  {
    forall other | other in w'.sessions ensures SessionInv(w', other) { assert SessionInv(w, other); }
    forall other | other in w'.closers ensures CloserInv(w', other) { assert CloserInv(w, other); }
    forall other | other in w'.births ensures BirthInv(w', other) { assert BirthInv(w, other); }
  }

  lemma AddStreamMaps(w: World, w': World, sid: SessionId, s: StreamId)
    requires sid in w.sessions && s in w.ops && !w.ops[s].started
    requires w' == w.(sessions := WithStream(w.sessions, sid, s))
    ensures MapsShrink(w.ops, w.sessions, w'.sessions)
  {
    forall r | r in w.ops && w.ops[r].started && InSomeMap(w'.sessions, r) ensures InSomeMap(w.sessions, r) {
      var other :| other in w'.sessions && r in w'.sessions[other].streams;
      assert other in w.sessions && r in w.sessions[other].streams;
    }
  }

  lemma TickKeeps(w: World, w': World)
    requires Inv(w) && w.now <= w'.now && w' == w.(now := w'.now)
    ensures Inv(w')
  {
    SessFrame(w, w');
    TableAgents(w, w');
    TableOps(w, w');
  }

  lemma CreateSess(w: World, w': World, sid: SessionId, session: Session, birth: Birth)
    requires SessInv(w) && Domains(w) && sid !in w.births && birth.ttl >= MIN_TTL && birth.createdAt == w.now
          && birth.usedBy.None?
    requires forall other :: other in w.births ==> w.births[other].code != birth.code
    requires session.code == birth.code && session.allowed == birth.allowed
    requires session.expiresAt == birth.createdAt + birth.ttl && !session.consumed && session.agent.None?
          && session.streams == map[]
    requires w' == w.(sessions := w.sessions[sid := session], births := w.births[sid := birth])
    ensures SessInv(w') && Domains(w')
  {
    forall other | other in w'.sessions ensures SessionInv(w', other) {
      if other != sid { assert SessionInv(w, other); }
    }
    forall other | other in w'.closers ensures CloserInv(w', other) { assert CloserInv(w, other); }
    forall other | other in w'.births ensures BirthInv(w', other) { if other != sid { assert BirthInv(w, other); } }
  }

  lemma CreateMaps(w: World, sid: SessionId, session: Session)
    requires session.streams == map[]
    ensures MapsShrink(w.ops, w.sessions, w.sessions[sid := session])
  {
    forall r | InSomeMap(w.sessions[sid := session], r) ensures InSomeMap(w.sessions, r) {
      var other :| other in w.sessions[sid := session] && r in w.sessions[sid := session][other].streams;
      assert other in w.sessions && r in w.sessions[other].streams;
    }
  }

  lemma CreateKeeps(w: World, w': World, sid: SessionId, session: Session, birth: Birth)
    requires Inv(w) && sid !in w.births && birth.ttl >= MIN_TTL && birth.createdAt == w.now && birth.usedBy.None?
    requires forall other :: other in w.births ==> w.births[other].code != birth.code
    requires session.code == birth.code && session.allowed == birth.allowed
    requires session.expiresAt == birth.createdAt + birth.ttl && !session.consumed && session.agent.None?
          && session.streams == map[]
    requires w' == w.(sessions := w.sessions[sid := session], births := w.births[sid := birth])
    ensures Inv(w')
  {
    CreateSess(w, w', sid, session, birth);
    CreateMaps(w, sid, session);
    TableAgents(w, w');
    TableOps(w, w');
  }

  /** An ended session leaves the table; its peers are still to be told. */
  lemma CloseKeeps(w: World, w': World, sid: SessionId, closer: Closer)
    requires Inv(w) && sid in w.births && sid !in w.sessions
    requires closer.agent.Some? ==> closer.agent.value in w.handlers && w.handlers[closer.agent.value].attached
    requires StreamsOk(w.ops, sid, closer.streams)
    requires w' == w.(closers := w.closers[sid := closer])
    ensures Inv(w')
  {
    CloseSess(w, w', sid, closer);
    TableAgents(w, w');
    TableOps(w, w');
  }

  lemma CloseSess(w: World, w': World, sid: SessionId, closer: Closer)
    requires SessInv(w) && Domains(w) && sid in w.births && sid !in w.sessions
    requires closer.agent.Some? ==> closer.agent.value in w.handlers && w.handlers[closer.agent.value].attached
    requires StreamsOk(w.ops, sid, closer.streams)
    requires w' == w.(closers := w.closers[sid := closer])
    ensures SessInv(w') && Domains(w')
  {
    forall other | other in w'.sessions ensures SessionInv(w', other) { assert SessionInv(w, other); }
    forall other | other in w'.closers ensures CloserInv(w', other) { if other != sid { assert CloserInv(w, other); } }
    forall other | other in w'.births ensures BirthInv(w', other) { assert BirthInv(w, other); }
  }

  lemma EndSessionKeeps(w: World, w': World, sid: SessionId)
    requires Inv(w) && sid in w.sessions
    requires w' == w.(sessions := w.sessions - {sid},
                      closers := w.closers[sid := Closer(w.sessions[sid].agent, w.sessions[sid].streams)])
    ensures Inv(w')
  {
    assert SessionInv(w, sid);
    var w1 := w.(sessions := w.sessions - {sid});
    ShrinkKeeps(w, w1);
    CloseKeeps(w1, w', sid, Closer(w.sessions[sid].agent, w.sessions[sid].streams));
  }

  /* ---------- notices to operators ---------- */

  /** Operator channels may have accepted messages that carry no data. */
  ghost predicate QuietOut(out: Pipe, out': Pipe) {
    && out'.delivered == out.delivered && (out.Bounded() ==> out'.Bounded())
    && Payload(out'.Sent(), None) == Payload(out.Sent(), None)
  }

  lemma TrySendQuiet(out: Pipe, m: WireMessage)
    requires !m.StreamData?
    ensures QuietOut(out, out.TrySend(m))
  {
    TrySendAppendsOrDrops(out, m);
    PayloadAppend(out.Sent(), m, None);
  }

  lemma NoticeSess(w: World, w': World)
    requires SessInv(w) && Domains(w) && w'.toOp.Keys == w.toOp.Keys && w' == w.(toOp := w'.toOp)
    ensures SessInv(w') && Domains(w')
  {
    SessFrame(w, w');
  }

  lemma NoticeAgents(w: World, w': World)
    requires AgentsInv(w) && w' == w.(toOp := w'.toOp)
    ensures AgentsInv(w')
  {
    forall a | a in w'.agents ensures AgInv(w', a) {
      assert AgInv(w, a);
      AgFrame(w, w', a);
    }
  }

  lemma NoticeFits(w: World, w': World, s: StreamId)
    requires OpInv(w, s) && s in w'.toOp && w' == w.(toOp := w'.toOp) && QuietOut(w.toOp[s], w'.toOp[s])
    ensures OpInv(w', s)
  {
  }

  lemma NoticeKeeps(w: World, w': World)
    requires Inv(w) && w'.toOp.Keys == w.toOp.Keys && w' == w.(toOp := w'.toOp)
    requires forall s :: s in w.toOp ==> QuietOut(w.toOp[s], w'.toOp[s])
    ensures Inv(w')
  {
    NoticeSess(w, w');
    NoticeAgents(w, w');
    forall s | s in w'.ops ensures OpInv(w', s) {
      assert OpInv(w, s);
      NoticeFits(w, w', s);
    }
  }

  lemma NotifiedQuiet(toOp: map<StreamId, Pipe>, streams: map<StreamId, StreamId>, text: string)
    ensures var toOp' := Notified(toOp, streams, text);
      toOp'.Keys == toOp.Keys && forall s :: s in toOp ==> QuietOut(toOp[s], toOp'[s])
  {
    forall s | s in toOp ensures QuietOut(toOp[s], Notified(toOp, streams, text)[s]) {
      TrySendQuiet(toOp[s], StreamError(s, text));
    }
  }

  /* ---------- joining and leaving ---------- */

  /** A handler whose agent no session holds any more ends. */
  lemma EndHandlerKeeps(w: World, w': World, a: AgentId, h: AgentHandler)
    requires Inv(w) && HasAgent(w, a) && w.handlers[a].pc.Clearing?
    requires forall sid :: sid in w.sessions ==> w.sessions[sid].agent != Some(a)
    requires h == w.handlers[a].(pc := Ended) && w' == w.(handlers := w.handlers[a := h])
    ensures Inv(w')
  {
    EndHandlerSess(w, w', a, h);
    EndHandlerAgents(w, w', a, h);
    forall s | s in w'.ops ensures OpInv(w', s) {
      assert OpInv(w, s);
      EndHandlerOp(w, w', a, h, s);
    }
  }

  lemma EndHandlerSess(w: World, w': World, a: AgentId, h: AgentHandler)
    requires SessInv(w) && Domains(w) && HasAgent(w, a)
    requires forall sid :: sid in w.sessions ==> w.sessions[sid].agent != Some(a)
    requires h == w.handlers[a].(pc := Ended) && w' == w.(handlers := w.handlers[a := h])
    ensures SessInv(w') && Domains(w')
  {
    forall sid | sid in w'.sessions ensures SessionInv(w', sid) { assert SessionInv(w, sid); }
    forall sid | sid in w'.closers ensures CloserInv(w', sid) { assert CloserInv(w, sid); }
    forall sid | sid in w'.births ensures BirthInv(w', sid) { assert BirthInv(w, sid); }
  }

  lemma EndHandlerAgents(w: World, w': World, a: AgentId, h: AgentHandler)
    requires AgentsInv(w) && HasAgent(w, a) && w.handlers[a].pc.Clearing?
    requires h == w.handlers[a].(pc := Ended) && w' == w.(handlers := w.handlers[a := h])
    ensures AgentsInv(w')
  {
    forall b | b in w'.agents ensures AgInv(w', b) {
      assert AgInv(w, b);
      if b == a { EndHandlerOwn(w, w', a, h); } else { AgFrame(w, w', b); }
    }
  }

  lemma EndHandlerOwn(w: World, w': World, a: AgentId, h: AgentHandler)
    requires AgInv(w, a) && w.handlers[a].pc.Clearing?
    requires h == w.handlers[a].(pc := Ended) && w' == w.(handlers := w.handlers[a := h])
    ensures AgInv(w', a)
  {
  }

  lemma EndHandlerOp(w: World, w': World, a: AgentId, h: AgentHandler, s: StreamId)
    requires OpInv(w, s) && HasAgent(w, a)
    requires h == w.handlers[a].(pc := Ended) && w' == w.(handlers := w.handlers[a := h])
    ensures OpInv(w', s)
  {
    if w.ops[s].agent != Some(a) {
      OpFrame(w, w', s);
    }
  }
}
