/** Steps that touch what several peers share: the session table, and the channels between peers. */
module TableSteps {
  import opened Wire
  import opened Pipes
  import opened AgentProcess
  import opened OperatorStream
  import opened RelaySystem
  import opened RelayInvariant

  /* ---------- changes of one stream's own records ---------- */

  ghost predicate OnlyOp(w: World, w': World, s: StreamId, op: Operator, out: Pipe) {
    s in w.ops && s in w.toOp && w' == w.(ops := w.ops[s := op], toOp := w.toOp[s := out])
  }

  lemma OpStepSess(w: World, w': World, s: StreamId, op: Operator, out: Pipe)
    requires SessInv(w) && Domains(w) && OnlyOp(w, w', s, op, out) && OpGrows(w.ops[s], op)
    ensures SessInv(w') && Domains(w')
  {
    SessFrame(w, w');
  }

  lemma OpStepAgents(w: World, w': World, s: StreamId, op: Operator, out: Pipe)
    requires AgentsInv(w) && OnlyOp(w, w', s, op, out) && OpGrows(w.ops[s], op)
    ensures AgentsInv(w')
  {
    assert OpsGrow(w.ops, w'.ops);
    forall a | a in w'.agents ensures AgInv(w', a) {
      assert AgInv(w, a);
      AgFrame(w, w', a);
    }
  }

  lemma OpStepOps(w: World, w': World, s: StreamId, op: Operator, out: Pipe)
    requires OpsInv(w) && OnlyOp(w, w', s, op, out) && OpFits(w, s, op, out)
    ensures OpsInv(w')
  {
    forall r | r in w'.ops ensures OpInv(w', r) {
      assert OpInv(w, r);
      if r != s { OpFrame(w, w', r); }
    }
  }

  /** A stream's own records change: it is enough to look at that stream. */
  lemma OpStep(w: World, w': World, s: StreamId, op: Operator, out: Pipe)
    requires Inv(w) && OnlyOp(w, w', s, op, out) && OpGrows(w.ops[s], op) && OpFits(w, s, op, out)
    ensures Inv(w')
  {
    OpStepSess(w, w', s, op, out);
    OpStepAgents(w, w', s, op, out);
    OpStepOps(w, w', s, op, out);
  }

  /** What a stream's link has sent down and been routed, as far as `LocalOpStep` is concerned. */
  lemma LocalLinked(op: Operator, s: StreamId, out: Pipe, h: AgentHandler, ag: Agent, p: Pipe, step: OperatorStep)
    requires OpLocal(op, s, out) && Linked(op, s, out, h, ag, p) && OperatorEnabled(op, out, step)
    ensures OpLocal(OperatorNext(op, s, out, step), s, OutAfter(out, step))
    ensures Linked(OperatorNext(op, s, out, step), s, OutAfter(out, step), h, ag, p)
  {
    OperatorStepKeeps(op, s, out, step, Payload(p.Sent(), Some(s)));
    OutKeepsSent(out, step);
  }

  lemma LocalUnlinked(op: Operator, s: StreamId, out: Pipe, step: OperatorStep)
    requires OpLocal(op, s, out) && Unlinked(op, out) && OperatorEnabled(op, out, step)
    ensures OpLocal(OperatorNext(op, s, out, step), s, OutAfter(out, step))
    ensures Unlinked(OperatorNext(op, s, out, step), OutAfter(out, step))
  {
    OperatorStepKeeps(op, s, out, step, []);
    OutKeepsSent(out, step);
  }

  lemma OutKeepsSent(out: Pipe, step: OperatorStep)
    requires step.BridgeReceive? ==> out.CanReceive()
    requires step.OutMove? ==> CanMove(out, step.move)
    ensures OutAfter(out, step).Sent() == out.Sent()
    ensures out.Bounded() ==> OutAfter(out, step).Bounded()
  {
    if step.BridgeReceive? { ReceiveKeepsSent(out); }
    if step.OutMove? { MoveKeepsSent(out, step.move); }
  }

  lemma OperatorIdentity(op: Operator, s: StreamId, out: Pipe, step: OperatorStep)
    requires OperatorEnabled(op, out, step)
    ensures var op' := OperatorNext(op, s, out, step);
      && op'.session == op.session && op'.target == op.target && op'.agent == op.agent && op'.checkedAt == op.checkedAt
      && op'.inserted == op.inserted && op'.started == op.started
  {
  }

  lemma LocalOpFits(w: World, s: StreamId, op: Operator, out: Pipe, step: OperatorStep)
    requires OpFits(w, s, op, out) && OperatorEnabled(op, out, step)
    ensures OpFits(w, s, OperatorNext(op, s, out, step), OutAfter(out, step))
    ensures OpGrows(op, OperatorNext(op, s, out, step))
  {
    OperatorIdentity(op, s, out, step);
    match op.agent {
      case None => LocalUnlinked(op, s, out, step);
      case Some(a) => LocalLinked(op, s, out, w.handlers[a], w.agents[a], w.toAgent[a], step);
    }
  }

  lemma LocalOpKeeps(w: World, w': World, s: StreamId, op: Operator, out: Pipe, step: OperatorStep)
    requires Inv(w) && HasOp(w, s) && OperatorEnabled(w.ops[s], w.toOp[s], step)
    requires op == OperatorNext(w.ops[s], s, w.toOp[s], step) && out == OutAfter(w.toOp[s], step)
    requires OnlyOp(w, w', s, op, out)
    ensures Inv(w')
  {
    assert OpInv(w, s);
    LocalOpFits(w, s, w.ops[s], w.toOp[s], step);
    OpStep(w, w', s, op, out);
  }

  ghost predicate PcFalls(was: HandlerPc, pc: HandlerPc) {
    || ((was.Checking? || was.Inserting? || was.Opening? || was.Removing?) && pc == Gone)
    || (was.Forwarding? && pc == Aborting)
    || (was.Notifying? && pc == Removing)
  }

  lemma OpPcFits(w: World, s: StreamId, op: Operator, out: Pipe, pc: HandlerPc, out': Pipe)
    requires OpFits(w, s, op, out) && PcFalls(op.pc, pc) && (out' == out || out' == out.Stop())
    ensures OpFits(w, s, op.(pc := pc), out')
  {
    assert out'.Sent() == out.Sent();
  }

  /** Only the operator handler's program counter moves, and its pipe at most stops. */
  lemma OpPcKeeps(w: World, w': World, s: StreamId, pc: HandlerPc, out: Pipe)
    requires Inv(w) && HasOp(w, s) && PcFalls(w.ops[s].pc, pc) && (out == w.toOp[s] || out == w.toOp[s].Stop())
    requires OnlyOp(w, w', s, w.ops[s].(pc := pc), out)
    ensures Inv(w')
  {
    assert OpInv(w, s);
    OpPcFits(w, s, w.ops[s], w.toOp[s], pc, out);
    OpStep(w, w', s, w.ops[s].(pc := pc), out);
  }

  /* ---------- messages between peers ---------- */

  /** The agent's pipe accepts a message about `s`. */
  lemma PushLocal(h: AgentHandler, ag: Agent, p: Pipe, m: WireMessage)
    requires AgLocal(h, ag, p) && h.attached && p.chan.CanSend() && DownMessageOk(m, Opens(p.Sent()))
    ensures AgLocal(h, ag, p.Send(m))
    ensures p.Send(m).Sent() == p.Sent() + [m]
    ensures Opens(p.Send(m).Sent()) == Opens(p.Sent()) + (if m.OpenStream? then {m.stream} else {})
  {
    SendAppends(p, m);
    DownGrammarAppend(p.Sent(), m);
    OpensAppend(p.Sent(), m);
  }

  lemma LinkedPushOther(op: Operator, r: StreamId, out: Pipe, h: AgentHandler, ag: Agent, p: Pipe, m: WireMessage)
    requires Linked(op, r, out, h, ag, p) && p.chan.CanSend() && !About(m, r)
    ensures Linked(op, r, out, h, ag, p.Send(m))
  {
    SendAppends(p, m);
    PayloadAppend(p.Sent(), m, Some(r));
    OpensAppend(p.Sent(), m);
  }

  /** Operator handler `s`, now in state `op`, has sent `m` to its agent `a`. */
  ghost predicate Pushes(w: World, w': World, s: StreamId, a: AgentId, m: WireMessage, op: Operator) {
    && s in w.ops && s in w.toOp && HasAgent(w, a) && w.ops[s].agent == Some(a) && op.agent == Some(a)
    && OpGrows(w.ops[s], op)
    && About(m, s) && w.toAgent[a].chan.CanSend() && DownMessageOk(m, Opens(w.toAgent[a].Sent()))
    && (m.OpenStream? ==> op.started && op.target == m.target)
    && w' == w.(ops := w.ops[s := op], toAgent := w.toAgent[a := w.toAgent[a].Send(m)])
  }

  lemma PushAgents(w: World, w': World, s: StreamId, a: AgentId, m: WireMessage, op: Operator)
    requires AgentsInv(w) && Pushes(w, w', s, a, m, op) && w.handlers[a].attached
    ensures AgentsInv(w')
  {
    assert OpsGrow(w.ops, w'.ops);
    forall b | b in w'.agents ensures AgInv(w', b) {
      assert AgInv(w, b);
      if b != a {
        PushOther(w, w', s, a, m, op, b);
      } else {
        PushOwn(w, w', s, a, m, op);
      }
    }
  }

  lemma PushOther(w: World, w': World, s: StreamId, a: AgentId, m: WireMessage, op: Operator, b: AgentId)
    requires AgInv(w, b) && b != a && Pushes(w, w', s, a, m, op) && OpsGrow(w.ops, w'.ops)
    ensures AgInv(w', b)
  {
    AgFrame(w, w', b);
  }

  lemma PushOwn(w: World, w': World, s: StreamId, a: AgentId, m: WireMessage, op: Operator)
    requires AgInv(w, a) && Pushes(w, w', s, a, m, op) && w.handlers[a].attached
    ensures AgInv(w', a)
  {
    PushLocal(w.handlers[a], w.agents[a], w.toAgent[a], m);
    OpensKeep(w.ops, w'.ops, a, w.toAgent[a].Sent());
  }

  lemma PushOps(w: World, w': World, s: StreamId, a: AgentId, m: WireMessage, op: Operator)
    requires OpsInv(w) && Pushes(w, w', s, a, m, op) && OpFits(w', s, op, w.toOp[s])
    ensures OpsInv(w')
  {
    forall r | r in w'.ops ensures OpInv(w', r) {
      assert OpInv(w, r);
      if r != s {
        if w.ops[r].agent == Some(a) {
          LinkedPushOther(w.ops[r], r, w.toOp[r], w.handlers[a], w.agents[a], w.toAgent[a], m);
        } else {
          OpFrame(w, w', r);
        }
      }
    }
  }

  lemma PushSess(w: World, w': World, s: StreamId, a: AgentId, m: WireMessage, op: Operator)
    requires SessInv(w) && Domains(w) && Pushes(w, w', s, a, m, op)
    ensures SessInv(w') && Domains(w')
  {
    SessFrame(w, w');
  }

  lemma PushKeeps(w: World, w': World, s: StreamId, a: AgentId, m: WireMessage, op: Operator)
    requires Inv(w) && Pushes(w, w', s, a, m, op) && w.handlers[a].attached && OpFits(w', s, op, w.toOp[s])
    ensures Inv(w')
  {
    PushSess(w, w', s, a, m, op);
    PushAgents(w, w', s, a, m, op);
    PushOps(w, w', s, a, m, op);
  }

  /** The open request is accepted: the stream starts. */
  lemma OpenLinked(op: Operator, s: StreamId, out: Pipe, h: AgentHandler, ag: Agent, p: Pipe)
    requires OpLocal(op, s, out) && Linked(op, s, out, h, ag, p) && op.pc.Opening? && p.chan.CanSend()
    ensures var op' := op.(pc := Relaying, started := true);
      OpLocal(op', s, out) && Linked(op', s, out, h, ag, p.Send(OpenStream(s, op.target)))
  {
    var m := OpenStream(s, op.target);
    SendAppends(p, m);
    PayloadAppend(p.Sent(), m, Some(s));
    OpensAppend(p.Sent(), m);
  }

  lemma NotYetOpened(w: World, s: StreamId, a: AgentId)
    requires AgInv(w, a) && s in w.ops && !w.ops[s].started
    ensures s !in Opens(w.toAgent[a].Sent())
  {
    OpensMember(w.toAgent[a].Sent(), s);
  }

  lemma SendOpenKeeps(w: World, w': World, s: StreamId, a: AgentId, m: WireMessage, op: Operator)
    requires Inv(w) && HasOp(w, s) && w.ops[s].pc.Opening? && w.ops[s].agent == Some(a) && w.toAgent[a].chan.CanSend()
    requires op == w.ops[s].(pc := Relaying, started := true) && m == OpenStream(s, op.target)
    requires w' == w.(ops := w.ops[s := op], toAgent := w.toAgent[a := w.toAgent[a].Send(m)])
    ensures Inv(w')
  {
    assert OpInv(w, s) && AgInv(w, a);
    SendOpenFits(w, w', s, a, m, op);
    PushKeeps(w, w', s, a, m, op);
  }

  lemma SendOpenFits(w: World, w': World, s: StreamId, a: AgentId, m: WireMessage, op: Operator)
    requires OpInv(w, s) && AgInv(w, a) && w.ops[s].pc.Opening? && w.ops[s].agent == Some(a)
          && w.toAgent[a].chan.CanSend()
    requires op == w.ops[s].(pc := Relaying, started := true) && m == OpenStream(s, op.target)
    requires w' == w.(ops := w.ops[s := op], toAgent := w.toAgent[a := w.toAgent[a].Send(m)])
    ensures OpFits(w', s, op, w.toOp[s]) && Pushes(w, w', s, a, m, op)
  {
    OpenLinked(w.ops[s], s, w.toOp[s], w.handlers[a], w.agents[a], w.toAgent[a]);
    NotYetOpened(w, s, a);
  }

  lemma ForwardUpHop(op: Operator, op': Operator, sent: Bytes)
    requires UpHopOk(op, sent) && op.fwd.Some? && op'.bridge == op.bridge && op'.up == op.up && op'.fwd.None?
    ensures UpHopOk(op', sent + Chunk(op.fwd.value, None))
  {
    var c, u, t := Chunk(op.fwd.value, None), Payload(op.up, None), ChunkOf(op.bridge.toSend, None);
    assert sent + (c + u + t) == sent + c + ([] + u + t);
  }

  /** A frame of the operator is accepted by the agent's channel. */
  lemma ForwardLinked(op: Operator, s: StreamId, out: Pipe, h: AgentHandler, ag: Agent, p: Pipe, op': Operator)
    requires OpLocal(op, s, out) && Linked(op, s, out, h, ag, p) && op.pc.Forwarding? && p.chan.CanSend()
    requires op' == op.(pc := if op.pc.last then Aborting else Relaying, fwd := None)
    ensures OpLocal(op', s, out) && Linked(op', s, out, h, ag, p.Send(op.fwd.value))
  {
    var m := op.fwd.value;
    SendAppends(p, m);
    PayloadAppend(p.Sent(), m, Some(s));
    OpensAppend(p.Sent(), m);
    ForwardUpHop(op, op', Payload(p.Sent(), Some(s)));
  }

  lemma ForwardKeeps(w: World, w': World, s: StreamId, a: AgentId, op: Operator)
    requires Inv(w) && HasOp(w, s) && w.ops[s].pc.Forwarding? && w.ops[s].fwd.Some?
    requires w.ops[s].agent == Some(a) && w.toAgent[a].chan.CanSend()
    requires op == w.ops[s].(pc := if w.ops[s].pc.last then Aborting else Relaying, fwd := None)
    requires w' == w.(ops := w.ops[s := op], toAgent := w.toAgent[a := w.toAgent[a].Send(w.ops[s].fwd.value)])
    ensures Inv(w')
  {
    assert OpInv(w, s);
    ForwardLinked(w.ops[s], s, w.toOp[s], w.handlers[a], w.agents[a], w.toAgent[a], op);
    PushKeeps(w, w', s, a, w.ops[s].fwd.value, op);
  }

  /** The relay offers an agent's channel a message that carries no data and opens nothing. */
  lemma TellAgentKeeps(w: World, w': World, a: AgentId, m: WireMessage, p: Pipe)
    requires Inv(w) && HasAgent(w, a) && w.handlers[a].attached && !m.OpenStream? && !m.StreamData?
    requires DownMessageOk(m, Opens(w.toAgent[a].Sent()))
    requires p == w.toAgent[a].TrySend(m) && w' == w.(toAgent := w.toAgent[a := p])
    ensures Inv(w')
  {
    assert AgInv(w, a);
    TellQuiet(w, w', a, m, p);
    QuietStep(w, w', a);
  }

  lemma TellQuiet(w: World, w': World, a: AgentId, m: WireMessage, p: Pipe)
    requires AgInv(w, a) && w.handlers[a].attached && !m.OpenStream? && !m.StreamData?
    requires DownMessageOk(m, Opens(w.toAgent[a].Sent()))
    requires p == w.toAgent[a].TrySend(m) && w' == w.(toAgent := w.toAgent[a := p])
    ensures QuietAt(w, w', a) && AgLocal(w'.handlers[a], w'.agents[a], w'.toAgent[a])
  {
    TellTried(w.handlers[a], w.agents[a], w.toAgent[a], m, p);
  }

  lemma TellTried(h: AgentHandler, ag: Agent, p: Pipe, m: WireMessage, p': Pipe)
    requires AgLocal(h, ag, p) && h.attached && !m.OpenStream? && !m.StreamData?
    requires DownMessageOk(m, Opens(p.Sent())) && p' == p.TrySend(m)
    ensures AgLocal(h, ag, p') && Quiet(h, ag, p, h, ag, p')
  {
    if p.chan.CanSend() {
      assert p' == p.Send(m);
      TellLocal(h, ag, p, m);
    } else {
      assert p' == p;
    }
  }

  lemma TellLocal(h: AgentHandler, ag: Agent, p: Pipe, m: WireMessage)
    requires AgLocal(h, ag, p) && h.attached && p.chan.CanSend() && !m.OpenStream? && !m.StreamData?
    requires DownMessageOk(m, Opens(p.Sent()))
    ensures AgLocal(h, ag, p.Send(m)) && Quiet(h, ag, p, h, ag, p.Send(m))
  {
    PushLocal(h, ag, p, m);
    forall s ensures Payload(p.Send(m).Sent(), Some(s)) == Payload(p.Sent(), Some(s)) {
      PayloadAppend(p.Sent(), m, Some(s));
    }
  }
}
