/** Every step of the system keeps the invariant, so every reachable state has it. */
module Invariance {
  import opened Wire
  import opened Pipes
  import opened AgentProcess
  import opened OperatorStream
  import opened RelayRules
  import opened RelaySystem
  import opened RelayInvariant
  import opened QuietSteps
  import opened TableSteps
  import opened SessionSteps
  import opened JoinSteps

  /* ---------- agent connections ---------- */

  lemma ConnShape(w: World, w': World, a: AgentId, c: Conn)
    requires HasAgent(w, a) && w' == WithConn(w, a, c)
    ensures OnlyAgent(w, w', a) && ConnOf(w', a) == c
  {
  }

  /** A connection's records change quietly, to records in order. */
  lemma ConnKeeps(w: World, w': World, a: AgentId, c: Conn)
    requires Inv(w) && HasAgent(w, a) && w' == WithConn(w, a, c)
    requires AgLocal(c.h, c.ag, c.p) && Quiet(w.handlers[a], w.agents[a], w.toAgent[a], c.h, c.ag, c.p)
    requires DroppedOk(w.sessions, c.h)
    ensures Inv(w')
  {
    ConnShape(w, w', a, c);
    QuietStep(w, w', a);
  }

  lemma OwnKeeps(w: World, w': World, a: AgentId, own: OwnStep, c: Conn)
    requires Inv(w) && HasAgent(w, a) && OwnEnabled(ConnOf(w, a), own)
    requires c == OwnNext(ConnOf(w, a), own) && w' == WithConn(w, a, c)
    ensures Inv(w')
  {
    assert AgInv(w, a);
    OwnLocal(ConnOf(w, a), own);
    ConnKeeps(w, w', a, c);
  }

  lemma HandlerShape(w: World, w': World, a: AgentId, h: AgentHandler, p: Pipe)
    requires HasAgent(w, a) && w'.toAgent == w.toAgent[a := p]
          && w' == w.(handlers := w.handlers[a := h], toAgent := w'.toAgent)
    ensures w' == WithConn(w, a, Conn(h, w.agents[a], p))
  {
    assert w.agents == w.agents[a := w.agents[a]];
  }

  /** Only the handler's program counter moves, and its pipe at most stops. */
  lemma PcKeeps(w: World, w': World, a: AgentId, h: AgentHandler, p: Pipe)
    requires Inv(w) && HasAgent(w, a) && h == w.handlers[a].(pc := h.pc)
    requires p == w.toAgent[a] || p == w.toAgent[a].Stop()
    requires
      || (w.handlers[a].pc.Joining? && h.pc.Rejecting? && p == w.toAgent[a])
      || (w.handlers[a].pc.Attaching? && h.pc.Ended?)
      || (w.handlers[a].pc.Dropping? && h.pc.Serving?)
      || (w.handlers[a].pc.Delivering? && h.pc.Disconnecting?)
    requires w'.toAgent == w.toAgent[a := p] && w' == w.(handlers := w.handlers[a := h], toAgent := w'.toAgent)
    ensures Inv(w')
  {
    assert AgInv(w, a);
    PcLocal(w.handlers[a], w.agents[a], w.toAgent[a], h, p);
    HandlerShape(w, w', a, h, p);
    ConnKeeps(w, w', a, Conn(h, w.agents[a], p));
  }

  lemma HandlerPcKeeps(w: World, w': World, a: AgentId, h: AgentHandler)
    requires Inv(w) && HasAgent(w, a) && h == w.handlers[a].(pc := h.pc)
    requires
      || (w.handlers[a].pc.Joining? && h.pc.Rejecting?)
      || (w.handlers[a].pc.Dropping? && h.pc.Serving?)
      || (w.handlers[a].pc.Delivering? && h.pc.Disconnecting?)
    requires w' == w.(handlers := w.handlers[a := h])
    ensures Inv(w')
  {
    assert w.toAgent == w.toAgent[a := w.toAgent[a]];
    PcKeeps(w, w', a, h, w.toAgent[a]);
  }

  lemma LookUpRecords(w: World, a: AgentId, found: Option<SessionId>, h: AgentHandler, s: StreamId)
    requires AgInv(w, a) && w.handlers[a].pc.LookingUp? && About(w.handlers[a].hand.value, s)
          && HoldsFrame(w.handlers[a])
    requires FoundStream(w.sessions, s, found) && (found.Some? ==> SessionInv(w, found.value))
    requires h == match found
                  case Some(sid) => w.handlers[a].(pc := Delivering(w.sessions[sid].streams[s]))
                  case None => AfterRouting(w.handlers[a])
                                 .(dropped := w.handlers[a].dropped + [w.handlers[a].hand.value])
    ensures AgLocal(h, w.agents[a], w.toAgent[a]) && DroppedOk(w.sessions, h)
    ensures Quiet(w.handlers[a], w.agents[a], w.toAgent[a], h, w.agents[a], w.toAgent[a])
  {
    if found.None? {
      DropLocal(w.handlers[a], w.agents[a], w.toAgent[a]);
    } else {
      assert InSomeMap(w.sessions, s);
      FoundLocal(w.handlers[a], w.agents[a], w.toAgent[a], s);
    }
  }

  lemma LookUpKeeps(w: World, w': World, a: AgentId, found: Option<SessionId>, h: AgentHandler, s: StreamId)
    requires Inv(w) && HasAgent(w, a) && w.handlers[a].pc.LookingUp? && HoldsFrame(w.handlers[a])
          && About(w.handlers[a].hand.value, s)
    requires FoundStream(w.sessions, s, found)
    requires h == match found
                  case Some(sid) => w.handlers[a].(pc := Delivering(w.sessions[sid].streams[s]))
                  case None => AfterRouting(w.handlers[a])
                                 .(dropped := w.handlers[a].dropped + [w.handlers[a].hand.value])
    requires w' == w.(handlers := w.handlers[a := h])
    ensures Inv(w')
  {
    assert AgInv(w, a) && (found.Some? ==> SessionInv(w, found.value));
    LookUpRecords(w, a, found, h, s);
    HandlerKeeps(w, w', a, h);
  }

  /** Only the handler's record changes, quietly. */
  lemma HandlerKeeps(w: World, w': World, a: AgentId, h: AgentHandler)
    requires Inv(w) && HasAgent(w, a) && w' == w.(handlers := w.handlers[a := h])
    requires AgLocal(h, w.agents[a], w.toAgent[a]) && DroppedOk(w.sessions, h)
    requires Quiet(w.handlers[a], w.agents[a], w.toAgent[a], h, w.agents[a], w.toAgent[a])
    ensures Inv(w')
  {
    assert w.toAgent == w.toAgent[a := w.toAgent[a]];
    HandlerShape(w, w', a, h, w.toAgent[a]);
    ConnKeeps(w, w', a, Conn(h, w.agents[a], w.toAgent[a]));
  }

  lemma RegisterSideKeeps(w: World, w': World, a: AgentId, sid: SessionId, hello: WireMessage, h: AgentHandler)
    requires Inv(w) && HasAgent(w, a) && w.handlers[a].pc == Joining(hello) && hello.AgentHello?
    requires sid in w.sessions && sid in w.births && JoinRefusal(w.sessions[sid], w.now, hello.exposes).None?
    requires h == w.handlers[a].(pc := Greeting, session := Some(sid))
    requires w' == w.(handlers := w.handlers[a := h],
                      sessions := w.sessions[sid := Joined(w.sessions[sid], hello.device)],
                      births := w.births[sid := w.births[sid].(usedBy := Some(a), usedAt := w.now)])
    ensures Inv(w')
  {
    RegisterKeeps(w, w', a, sid, Joined(w.sessions[sid], hello.device),
                  w.births[sid].(usedBy := Some(a), usedAt := w.now), h);
  }

  lemma DropStreamKeeps(w: World, w': World, a: AgentId, h: AgentHandler, s: StreamId)
    requires Inv(w) && HasAgent(w, a) && w.handlers[a].pc == Dropping(s) && h == w.handlers[a].(pc := Serving)
    requires w' == w.(handlers := w.handlers[a := h], sessions := WithoutStream(w.sessions, s))
    ensures Inv(w')
  {
    var w1 := w.(handlers := w.handlers[a := h]);
    HandlerPcKeeps(w, w1, a, h);
    WithoutStreamShrinks(w1.sessions, s);
    ShrinkKeeps(w1, w');
  }

  /** No session but its own can hold a handler's agent. */
  lemma OnlyOwnSession(w: World, a: AgentId, sid: SessionId)
    requires Inv(w) && HasAgent(w, a) && w.handlers[a].session == Some(sid)
    ensures forall other :: other in w.sessions && other != sid ==> w.sessions[other].agent != Some(a)
  {
    forall other | other in w.sessions && other != sid ensures w.sessions[other].agent != Some(a) {
      assert SessionInv(w, other);
    }
  }

  /** The session loses its agent and its streams, and the handler ends. */
  lemma ClearTable(w: World, w': World, a: AgentId, sid: SessionId, h: AgentHandler)
    requires Inv(w) && HasAgent(w, a) && w.handlers[a].pc.Clearing? && w.handlers[a].session == Some(sid)
    requires h == w.handlers[a].(pc := Ended)
    requires w' == w.(handlers := w.handlers[a := h], sessions := WithoutAgent(w.sessions, sid))
    ensures Inv(w')
  {
    OnlyOwnSession(w, a, sid);
    var w1 := w.(sessions := WithoutAgent(w.sessions, sid));
    WithoutAgentShrinks(w.sessions, sid);
    ShrinkKeeps(w, w1);
    EndHandlerKeeps(w1, w', a, h);
  }

  lemma WithoutAgentShrinks(sessions: Sessions, sid: SessionId)
    ensures TableShrinks(sessions, WithoutAgent(sessions, sid))
  {
  }

  lemma NotifyKeeps(w: World, w': World, streams: map<StreamId, StreamId>, text: string)
    requires Inv(w) && w' == w.(toOp := Notified(w.toOp, streams, text))
    ensures Inv(w')
  {
    NotifiedQuiet(w.toOp, streams, text);
    NoticeKeeps(w, w');
  }

  lemma ClearKeeps(w: World, w': World, a: AgentId, sid: SessionId, h: AgentHandler)
    requires Inv(w) && HasAgent(w, a) && w.handlers[a].pc.Clearing? && w.handlers[a].session == Some(sid)
    requires h == w.handlers[a].(pc := Ended)
    requires w' == w.(handlers := w.handlers[a := h], sessions := WithoutAgent(w.sessions, sid),
                      toOp := if sid in w.sessions
                              then Notified(w.toOp, w.sessions[sid].streams, AGENT_DISCONNECTED) else w.toOp)
    ensures Inv(w')
  {
    var w1 := w.(handlers := w.handlers[a := h], sessions := WithoutAgent(w.sessions, sid));
    ClearTable(w, w1, a, sid, h);
    if sid in w.sessions {
      NotifyKeeps(w1, w', w.sessions[sid].streams, AGENT_DISCONNECTED);
    }
  }

  lemma RegisterAnyKeeps(w: World, a: AgentId, found: Option<SessionId>)
    requires Inv(w) && HasAgent(w, a) && AgentSideEnabled(w, a, Register(found))
    ensures Inv(RegisterNext(w, a, w.handlers[a].pc.hello, found))
  {
    var h, hello := w.handlers[a], w.handlers[a].pc.hello;
    var w' := RegisterNext(w, a, hello, found);
    if found.Some? && JoinRefusal(w.sessions[found.value], w.now, hello.exposes).None? {
      RegisterSideKeeps(w, w', a, found.value, hello, h.(pc := Greeting, session := found));
    } else {
      HandlerPcKeeps(w, w', a, w'.handlers[a]);
    }
  }

  lemma AttachAnyKeeps(w: World, a: AgentId, sid: SessionId)
    requires Inv(w) && HasAgent(w, a) && w.handlers[a].pc.Attaching? && w.handlers[a].session == Some(sid)
    ensures Inv(AttachNext(w, a, sid))
  {
    var h := w.handlers[a];
    if sid in w.sessions {
      AttachKeeps(w, AttachNext(w, a, sid), a, sid, h.(pc := Serving, attached := true), w.toAgent[a].Start());
    } else {
      PcKeeps(w, AttachNext(w, a, sid), a, h.(pc := Ended), w.toAgent[a].Stop());
    }
  }

  lemma LookUpAnyKeeps(w: World, a: AgentId, found: Option<SessionId>, s: StreamId)
    requires Inv(w) && HasAgent(w, a) && w.handlers[a].pc.LookingUp? && HoldsFrame(w.handlers[a])
          && About(w.handlers[a].hand.value, s)
    requires FoundStream(w.sessions, s, found)
    ensures Inv(LookUpNext(w, a, found))
  {
    LookUpKeeps(w, LookUpNext(w, a, found), a, found, LookUpNext(w, a, found).handlers[a], s);
  }

  predicate IsRouting(side: AgentSide) {
    side.LookUp? || side.Deliver? || side.DeliverLost? || side.DropStream?
  }

  /** The steps that route a frame to its operator. */
  lemma RoutingKeeps(w: World, w': World, a: AgentId, side: AgentSide)
    requires Inv(w) && HasAgent(w, a) && AgentSideEnabled(w, a, side) && w' == AgentSideNext(w, a, side)
          && IsRouting(side)
    ensures Inv(w')
  {
    var h := w.handlers[a];
    match side {
      case LookUp(found) => LookUpAnyKeeps(w, a, found, StreamOf(h.hand.value).value);
      case Deliver => DeliverKeeps(w, w', a, AfterRouting(h), w.toOp[h.pc.peer].Send(h.hand.value));
      case DeliverLost => HandlerPcKeeps(w, w', a, h.(pc := Disconnecting));
      case DropStream => DropStreamKeeps(w, w', a, h.(pc := Serving), h.pc.stream);
    }
  }

  /** The steps that join the agent to its session and take it out again. */
  lemma MembershipKeeps(w: World, w': World, a: AgentId, side: AgentSide)
    requires Inv(w) && HasAgent(w, a) && AgentSideEnabled(w, a, side) && w' == AgentSideNext(w, a, side)
    requires side.Register? || side.Attach? || side.ClearAgent?
    ensures Inv(w')
  {
    var h := w.handlers[a];
    match side {
      case Register(found) => RegisterAnyKeeps(w, a, found);
      case Attach => AttachAnyKeeps(w, a, h.session.value);
      case ClearAgent => ClearKeeps(w, w', a, h.session.value, h.(pc := Ended));
    }
  }

  lemma AgentSideKeeps(w: World, w': World, a: AgentId, side: AgentSide)
    requires Inv(w) && HasAgent(w, a) && AgentSideEnabled(w, a, side) && w' == AgentSideNext(w, a, side)
    ensures Inv(w')
  {
    if IsRouting(side) {
      RoutingKeeps(w, w', a, side);
    } else if side.Own? {
      OwnKeeps(w, w', a, side.own, OwnNext(ConnOf(w, a), side.own));
    } else {
      MembershipKeeps(w, w', a, side);
    }
  }

  /* ---------- operator streams ---------- */

  lemma OpFallKeeps(w: World, w': World, s: StreamId, pc: HandlerPc, stop: bool)
    requires Inv(w) && HasOp(w, s) && PcFalls(w.ops[s].pc, pc)
    requires w' == w.(ops := w.ops[s := w.ops[s].(pc := pc)],
                      toOp := if stop then w.toOp[s := w.toOp[s].Stop()] else w.toOp)
    ensures Inv(w')
  {
    assert w.toOp == w.toOp[s := w.toOp[s]];
    OpPcKeeps(w, w', s, pc, if stop then w.toOp[s].Stop() else w.toOp[s]);
  }

  lemma CheckSideKeeps(w: World, s: StreamId)
    requires Inv(w) && HasOp(w, s) && w.ops[s].pc.Checking?
    ensures Inv(CheckNext(w, s))
  {
    var op := w.ops[s];
    if OpenRefusal(w.sessions, op.session, op.target, w.now).Some? {
      OpFallKeeps(w, CheckNext(w, s), s, Gone, false);
    } else {
      AdmitKeeps(w, CheckNext(w, s), s,
                 op.(pc := Inserting, agent := w.sessions[op.session].agent, checkedAt := w.now));
    }
  }

  lemma AdmitKeeps(w: World, w': World, s: StreamId, op: Operator)
    requires Inv(w) && HasOp(w, s) && w.ops[s].pc.Checking?
    requires OpenRefusal(w.sessions, w.ops[s].session, w.ops[s].target, w.now).None?
    requires op == w.ops[s].(pc := Inserting, agent := w.sessions[w.ops[s].session].agent, checkedAt := w.now)
    requires w' == w.(ops := w.ops[s := op])
    ensures Inv(w')
  {
    CheckKeeps(w, w', s, op.agent.value, op);
  }

  lemma InsertSideKeeps(w: World, s: StreamId)
    requires Inv(w) && HasOp(w, s) && w.ops[s].pc.Inserting?
    ensures Inv(InsertNext(w, s))
  {
    var op := w.ops[s];
    if op.session in w.sessions {
      InsertKeeps(w, InsertNext(w, s), s, op.(pc := Opening, inserted := true, late := AgentOver(w, op)));
    } else {
      OpFallKeeps(w, InsertNext(w, s), s, Gone, true);
    }
  }

  lemma StartOut(w: World, w': World, s: StreamId)
    requires Inv(w) && s in w.ops && s in w.toOp && w' == w.(toOp := w.toOp[s := w.toOp[s].Start()])
    ensures Inv(w')
  {
    assert OpInv(w, s);
    StartFits(w, s, w.ops[s], w.toOp[s]);
    assert w.ops == w.ops[s := w.ops[s]];
    OpStep(w, w', s, w.ops[s], w.toOp[s].Start());
  }

  lemma StartFits(w: World, s: StreamId, op: Operator, out: Pipe)
    requires OpFits(w, s, op, out)
    ensures OpFits(w, s, op, out.Start())
  {
    assert out.Start().Sent() == out.Sent();
  }

  lemma SendOpenSideKeeps(w: World, w': World, s: StreamId, a: AgentId, m: WireMessage, op: Operator)
    requires Inv(w) && HasOp(w, s) && w.ops[s].pc.Opening? && w.ops[s].agent == Some(a) && w.toAgent[a].chan.CanSend()
    requires op == w.ops[s].(pc := Relaying, started := true) && m == OpenStream(s, op.target)
    requires w' == w.(ops := w.ops[s := op], toAgent := w.toAgent[a := w.toAgent[a].Send(m)],
                      toOp := w.toOp[s := w.toOp[s].Start()])
    ensures Inv(w')
  {
    var w1 := w.(ops := w.ops[s := op], toAgent := w.toAgent[a := w.toAgent[a].Send(m)]);
    SendOpenKeeps(w, w1, s, a, m, op);
    StartOut(w1, w', s);
  }

  lemma TellAgentDoneKeeps(w: World, w': World, s: StreamId, a: AgentId, p: Pipe)
    requires Inv(w) && HasOp(w, s) && w.ops[s].pc.Notifying? && w.ops[s].agent == Some(a)
    requires p == w.toAgent[a].TrySend(StreamClose(s))
    requires w' == w.(ops := w.ops[s := w.ops[s].(pc := Removing)], toAgent := w.toAgent[a := p])
    ensures Inv(w')
  {
    assert OpInv(w, s);
    var w1 := w.(toAgent := w.toAgent[a := p]);
    TellAgentKeeps(w, w1, a, StreamClose(s), p);
    OpFallKeeps(w1, w', s, Removing, false);
  }

  lemma RemoveOwnKeeps(w: World, w': World, s: StreamId)
    requires Inv(w) && HasOp(w, s) && w.ops[s].pc.Removing?
    requires w' == w.(ops := w.ops[s := w.ops[s].(pc := Gone)], sessions := WithoutStream(w.sessions, s))
    ensures Inv(w')
  {
    var w1 := w.(ops := w.ops[s := w.ops[s].(pc := Gone)]);
    OpFallKeeps(w, w1, s, Gone, false);
    WithoutStreamShrinks(w1.sessions, s);
    ShrinkKeeps(w1, w');
  }

  predicate IsSend(side: OperatorSide) {
    side.SendOpen? || side.Forward? || side.TellAgentDone?
  }

  predicate IsTable(side: OperatorSide) {
    side.Check? || side.Insert? || side.RemoveOwn?
  }

  lemma SendSideKeeps(w: World, w': World, s: StreamId, side: OperatorSide)
    requires Inv(w) && HasOp(w, s) && OperatorSideEnabled(w, s, side) && w' == OperatorSideNext(w, s, side)
          && IsSend(side)
    ensures Inv(w')
  {
    var op := w.ops[s];
    var a := op.agent.value;
    match side {
      case SendOpen => SendOpenSideKeeps(w, w', s, a, OpenStream(s, op.target), op.(pc := Relaying, started := true));
      case Forward => ForwardKeeps(w, w', s, a, op.(pc := if op.pc.last then Aborting else Relaying, fwd := None));
      case TellAgentDone => TellAgentDoneKeeps(w, w', s, a, w.toAgent[a].TrySend(StreamClose(s)));
    }
  }

  lemma TableSideKeeps(w: World, w': World, s: StreamId, side: OperatorSide)
    requires Inv(w) && HasOp(w, s) && OperatorSideEnabled(w, s, side) && w' == OperatorSideNext(w, s, side)
          && IsTable(side)
    ensures Inv(w')
  {
    match side {
      case Check => CheckSideKeeps(w, s);
      case Insert => InsertSideKeeps(w, s);
      case RemoveOwn => RemoveOwnKeeps(w, w', s);
    }
  }

  lemma PrivateSideKeeps(w: World, w': World, s: StreamId, side: OperatorSide)
    requires Inv(w) && HasOp(w, s) && OperatorSideEnabled(w, s, side) && w' == OperatorSideNext(w, s, side)
    requires !IsSend(side) && !IsTable(side)
    ensures Inv(w')
  {
    match side {
      case Local(step) => LocalOpKeeps(w, w', s, OperatorNext(w.ops[s], s, w.toOp[s], step),
                                       OutAfter(w.toOp[s], step), step);
      case SendOpenLost => OpFallKeeps(w, w', s, Gone, true);
      case ForwardLost => OpFallKeeps(w, w', s, Aborting, false);
    }
  }

  lemma OperatorSideKeeps(w: World, w': World, s: StreamId, side: OperatorSide)
    requires Inv(w) && HasOp(w, s) && OperatorSideEnabled(w, s, side) && w' == OperatorSideNext(w, s, side)
    ensures Inv(w')
  {
    if IsSend(side) {
      SendSideKeeps(w, w', s, side);
    } else if IsTable(side) {
      TableSideKeeps(w, w', s, side);
    } else {
      PrivateSideKeeps(w, w', s, side);
    }
  }

  /* ---------- ended sessions ---------- */

  lemma TellAgentClosedKeeps(w: World, w': World, sid: SessionId, a: AgentId, closer: Closer)
    requires Inv(w) && sid in w.closers && w.closers[sid].agent == Some(a) && HasAgent(w, a)
    requires closer == w.closers[sid].(agent := None)
    requires w' == w.(toAgent := w.toAgent[a := w.toAgent[a].TrySend(Error(SESSION_ENDED))],
                      closers := w.closers[sid := closer])
    ensures Inv(w')
  {
    assert CloserInv(w, sid);
    var m := Error(SESSION_ENDED);
    var w1 := w.(toAgent := w.toAgent[a := w.toAgent[a].TrySend(m)]);
    TellAgentKeeps(w, w1, a, m, w.toAgent[a].TrySend(m));
    CloseKeeps(w1, w', sid, closer);
  }

  lemma OneNotice(w: World, w': World, s: StreamId, m: WireMessage)
    requires Inv(w) && s in w.toOp && !m.StreamData? && w' == w.(toOp := w.toOp[s := w.toOp[s].TrySend(m)])
    ensures Inv(w')
  {
    TrySendQuiet(w.toOp[s], m);
    NoticeKeeps(w, w');
  }

  lemma TellStreamClosedKeeps(w: World, w': World, sid: SessionId, s: StreamId, closer: Closer)
    requires Inv(w) && sid in w.closers && s in w.closers[sid].streams
    requires closer == w.closers[sid].(streams := w.closers[sid].streams - {s}) && w.closers[sid].streams[s] in w.toOp
    requires var peer := w.closers[sid].streams[s];
      w' == w.(toOp := w.toOp[peer := w.toOp[peer].TrySend(StreamError(s, SESSION_ENDED))],
               closers := w.closers[sid := closer])
    ensures Inv(w')
  {
    assert CloserInv(w, sid);
    var w1 := w.(toOp := w.toOp[s := w.toOp[s].TrySend(StreamError(s, SESSION_ENDED))]);
    OneNotice(w, w1, s, StreamError(s, SESSION_ENDED));
    CloseKeeps(w1, w', sid, closer);
  }

  /* ---------- all steps, all runs ---------- */

  lemma TableStepKeeps(w: World, st: Step)
    requires Inv(w) && Enabled(w, st)
          && (st.Tick? || st.CreateSession? || st.EndSession? || st.StartAgent? || st.OpenOperator?)
    ensures Inv(Next(w, st))
  {
    match st {
      case Tick(_) => TickKeeps(w, Next(w, st));
      case CreateSession(sid, code, device, allowed, ttl) =>
        CreateKeeps(w, Next(w, st), sid, NewSession(code, device, allowed, ttl, w.now),
                    Birth(code, allowed, w.now, EffectiveTtl(ttl), None, 0));
      case EndSession(sid) => EndSessionKeeps(w, Next(w, st), sid);
      case StartAgent(a, code, device, exposes) =>
        StartKeeps(w, Next(w, st), a, NewAgent(code, device, exposes),
                   AgentHandler(AwaitingHello, None, false, None, []));
      case OpenOperator(sid, target) => OpenKeeps(w, Next(w, st), w.nextStream, NewOperator(sid, target));
    }
  }

  /** Telling the peers of an ended session. */
  lemma TellKeeps(w: World, st: Step)
    requires Inv(w) && Enabled(w, st) && (st.TellAgentClosed? || st.TellStreamClosed?)
    ensures Inv(Next(w, st))
  {
    match st {
      case TellAgentClosed(sid) =>
        TellAgentClosedKeeps(w, Next(w, st), sid, w.closers[sid].agent.value, w.closers[sid].(agent := None));
      case TellStreamClosed(sid, s) =>
        TellStreamClosedKeeps(w, Next(w, st), sid, s, w.closers[sid].(streams := w.closers[sid].streams - {s}));
    }
  }

  /** Every step keeps the invariant. */
  lemma StepKeeps(w: World, st: Step)
    requires Inv(w) && Enabled(w, st)
    ensures Inv(Next(w, st))
  {
    match st {
      case ByAgent(a, side) => AgentSideKeeps(w, Next(w, st), a, side);
      case ByOperator(s, side) => OperatorSideKeeps(w, Next(w, st), s, side);
      case TellAgentClosed(_) => TellKeeps(w, st);
      case TellStreamClosed(_, _) => TellKeeps(w, st);
      case _ => TableStepKeeps(w, st);
    }
  }

  ghost predicate Follows(run: seq<World>, steps: seq<Step>, i: nat)
    requires i < |steps| && |run| == |steps| + 1
  {
    Enabled(run[i], steps[i]) && run[i + 1] == Next(run[i], steps[i])
  }

  /** `run` is a run of the system: it starts empty, and each state follows by the step between. */
  ghost predicate IsRun(run: seq<World>, steps: seq<Step>) {
    && |run| == |steps| + 1 && run[0] == START
    && forall i :: 0 <= i < |steps| ==> Follows(run, steps, i)
  }

  /** Every state of every run satisfies the invariant. */
  lemma {:induction false} RunKeeps(run: seq<World>, steps: seq<Step>, i: nat)
    requires IsRun(run, steps) && i < |run|
    ensures Inv(run[i])
  {
    if i == 0 {
      StartInv();
    } else {
      RunKeeps(run, steps, i - 1);
      assert Follows(run, steps, i - 1);
      StepKeeps(run[i - 1], steps[i - 1]);
    }
  }

  /** The bookkeeping that the guards of the steps ask for, beyond what the code itself tests, is always
      there: the guards leave no step of the code out. */
  lemma PeersExist(w: World)
    requires Inv(w)
    ensures forall a :: a in w.agents ==> HasAgent(w, a)
    ensures forall s :: s in w.ops ==> HasOp(w, s)
    ensures forall sid :: sid in w.sessions ==> sid in w.births
  {
    forall s | s in w.ops ensures HasOp(w, s) { assert OpInv(w, s); }
    forall sid | sid in w.sessions ensures sid in w.births { assert SessionInv(w, sid); }
  }

  lemma FrameTargetsExist(w: World, a: AgentId)
    requires Inv(w) && HasAgent(w, a)
    ensures w.handlers[a].pc.Delivering? ==> w.handlers[a].pc.peer in w.toOp && HoldsFrame(w.handlers[a])
    ensures w.agents[a].pc.Pushing? ==> w.agents[a].pc.stream in w.agents[a].locals
  {
    assert AgInv(w, a);
    if w.handlers[a].pc.Delivering? {
      AskedStarted(w.ops, a, w.toAgent[a].Sent(), w.handlers[a].pc.peer);
    }
  }

  lemma ClosedPeersExist(w: World, sid: SessionId)
    requires Inv(w) && sid in w.closers
    ensures w.closers[sid].agent.Some? ==> HasAgent(w, w.closers[sid].agent.value)
    ensures forall s :: s in w.closers[sid].streams ==> w.closers[sid].streams[s] in w.toOp
  {
    assert CloserInv(w, sid);
  }
}
