/** The whole system: the relay's table, any number of agents with their relay-side handlers, and any
    number of operator streams, stepping in any interleaving. */
module RelaySystem {
  import opened Wire
  import opened Pipes
  import opened AgentProcess
  import opened OperatorStream
  import opened RelayRules

  datatype ServePc =
    | AwaitingHello
    | Joining(hello: WireMessage)
    | Rejecting(reason: JoinError)
    | Greeting
    | Attaching
    | Serving
    | LookingUp
    | Delivering(peer: StreamId)
    | Dropping(stream: StreamId)
    | Disconnecting
    | Clearing
    | Ended

  /** The relay's handler of one agent websocket. `session` is set by registration, `attached` by the
      second lock section; `hand` is the frame being routed; `dropped` records frames no operator got. */
  datatype AgentHandler = AgentHandler(pc: ServePc, session: Option<SessionId>, attached: bool,
                                       hand: Option<WireMessage>, dropped: seq<WireMessage>)

  /** History of a session: how it was created, and which agent consumed its code and when. */
  datatype Birth = Birth(code: SessionCode, allowed: seq<TunnelSpec>, createdAt: nat, ttl: nat,
                         usedBy: Option<AgentId>, usedAt: nat)

  /** An ended session whose peers are still being notified. */
  datatype Closer = Closer(agent: Option<AgentId>, streams: map<StreamId, StreamId>)

  datatype World = World(now: nat, sessions: Sessions, nextStream: StreamId,
                         toAgent: map<AgentId, Pipe>, toOp: map<StreamId, Pipe>,
                         agents: map<AgentId, Agent>, handlers: map<AgentId, AgentHandler>,
                         ops: map<StreamId, Operator>,
                         births: map<SessionId, Birth>, closers: map<SessionId, Closer>)

  const START: World := World(0, map[], 1, map[], map[], map[], map[], map[], map[], map[])

  /** Steps of an agent connection that touch nothing but its own three records. */
  datatype OwnStep =
    | Process(step: AgentStep)
    | DownMoves(move: Move)
    | ReceiveHello
    | HelloLost
    | Reject
    | Greet
    | ReceiveAgentFrame
    | LeaveAgentLoop
    | AbortAgentOutbound(late: bool)

  /** Steps of an agent connection: its process, its websocket, and the relay's handler of it. */
  datatype AgentSide =
    | Own(own: OwnStep)
    | Register(found: Option<SessionId>)
    | Attach
    | LookUp(found: Option<SessionId>)
    | Deliver
    | DeliverLost
    | DropStream
    | ClearAgent

  /** Steps of an operator stream: its bridge, its websocket, and the relay's handler of it. */
  datatype OperatorSide =
    | Local(opStep: OperatorStep)
    | Check
    | Insert
    | SendOpen
    | SendOpenLost
    | Forward
    | ForwardLost
    | TellAgentDone
    | RemoveOwn

  datatype Step =
    | Tick(elapsed: nat)
    | CreateSession(sid: SessionId, code: SessionCode, device: Option<string>, allowed: seq<TunnelSpec>,
                    requestedTtl: nat)
    | EndSession(sid: SessionId)
    | TellAgentClosed(sid: SessionId)
    | TellStreamClosed(sid: SessionId, stream: StreamId)
    | StartAgent(agent: AgentId, code: SessionCode, device: Option<string>, exposes: seq<TunnelSpec>)
    | OpenOperator(sid: SessionId, target: string)
    | ByAgent(agent: AgentId, side: AgentSide)
    | ByOperator(stream: StreamId, opSide: OperatorSide)

  /** A connected handler, between its second lock section and its last. */
  predicate IsLive(h: AgentHandler) {
    h.pc.Serving? || h.pc.LookingUp? || h.pc.Delivering? || h.pc.Dropping? || h.pc.Disconnecting? || h.pc.Clearing?
  }

  predicate HasAgent(w: World, a: AgentId) {
    a in w.agents && a in w.handlers && a in w.toAgent
  }

  predicate HasOp(w: World, s: StreamId) {
    s in w.ops && s in w.toOp && (w.ops[s].agent.Some? ==> HasAgent(w, w.ops[s].agent.value))
  }

  /** The channel to the agent whose sender this operator handler cloned. */
  function AgentPipe(w: World, s: StreamId): Pipe
    requires HasOp(w, s) && w.ops[s].agent.Some?
  {
    w.toAgent[w.ops[s].agent.value]
  }

  predicate HoldsFrame(h: AgentHandler) {
    h.hand.Some? && StreamOf(h.hand.value).Some?
  }

  /** The three records of one agent connection. */
  datatype Conn = Conn(h: AgentHandler, ag: Agent, p: Pipe)

  predicate OwnEnabled(c: Conn, own: OwnStep) {
    match own
    case Process(step) => AgentEnabled(c.ag, c.p, step)
    case DownMoves(v) => !v.StartMove? && CanMove(c.p, v)
    case ReceiveHello => c.h.pc.AwaitingHello? && c.ag.up.CanReceive()
    case HelloLost => c.h.pc.AwaitingHello?
    case Reject => c.h.pc.Rejecting?
    case Greet => c.h.pc.Greeting? && c.h.session.Some? && c.p.chan.CanSend()
    case ReceiveAgentFrame => c.h.pc.Serving? && c.ag.up.CanReceive()
    case LeaveAgentLoop => c.h.pc.Serving?
    case AbortAgentOutbound(_) => c.h.pc.Disconnecting?
  }

  function ConnOf(w: World, a: AgentId): Conn
    requires HasAgent(w, a)
  {
    Conn(w.handlers[a], w.agents[a], w.toAgent[a])
  }

  ghost predicate AgentSideEnabled(w: World, a: AgentId, side: AgentSide)
    requires HasAgent(w, a)
  {
    var h := w.handlers[a];
    match side
    case Own(own) => OwnEnabled(ConnOf(w, a), own)
    case Register(found) =>
      h.pc.Joining? && h.pc.hello.AgentHello? && FoundByCode(w.sessions, h.pc.hello.code, found)
      && (found.Some? ==> found.value in w.births)
    case Attach => h.pc.Attaching? && h.session.Some?
    case LookUp(found) =>
      h.pc.LookingUp? && HoldsFrame(h) && FoundStream(w.sessions, StreamOf(h.hand.value).value, found)
    case Deliver => h.pc.Delivering? && HoldsFrame(h) && h.pc.peer in w.toOp && w.toOp[h.pc.peer].chan.CanSend()
    case DeliverLost => h.pc.Delivering? && h.pc.peer in w.toOp && !w.toOp[h.pc.peer].chan.open
    case DropStream => h.pc.Dropping?
    case ClearAgent => h.pc.Clearing? && h.session.Some?
  }

  predicate OperatorSideEnabled(w: World, s: StreamId, side: OperatorSide)
    requires HasOp(w, s)
  {
    var op := w.ops[s];
    match side
    case Local(step) => OperatorEnabled(op, w.toOp[s], step)
    case Check => op.pc.Checking?
    case Insert => op.pc.Inserting?
    case SendOpen => op.pc.Opening? && op.agent.Some? && AgentPipe(w, s).chan.CanSend()
    case SendOpenLost => op.pc.Opening? && op.agent.Some? && !AgentPipe(w, s).chan.open
    case Forward => op.pc.Forwarding? && op.fwd.Some? && op.agent.Some? && AgentPipe(w, s).chan.CanSend()
    case ForwardLost => op.pc.Forwarding? && op.agent.Some? && !AgentPipe(w, s).chan.open
    case TellAgentDone => op.pc.Notifying? && op.agent.Some?
    case RemoveOwn => op.pc.Removing?
  }

  ghost predicate Enabled(w: World, st: Step) {
    match st
    case Tick(_) => true
    // Session ids and codes are made from fresh UUIDs.
    case CreateSession(sid, code, _, allowed, _) =>
      sid !in w.births && (forall other :: other in w.births ==> w.births[other].code != code) && |allowed| > 0
    case EndSession(sid) => sid in w.sessions
    case TellAgentClosed(sid) =>
      sid in w.closers && w.closers[sid].agent.Some? && HasAgent(w, w.closers[sid].agent.value)
    case TellStreamClosed(sid, s) =>
      sid in w.closers && w.closers[sid].agent.None? && s in w.closers[sid].streams
          && w.closers[sid].streams[s] in w.toOp
    case StartAgent(a, _, _, _) => a !in w.agents && a !in w.handlers && a !in w.toAgent
    case OpenOperator(_, _) => true
    case ByAgent(a, side) => HasAgent(w, a) && AgentSideEnabled(w, a, side)
    case ByOperator(s, side) => HasOp(w, s) && OperatorSideEnabled(w, s, side)
  }

  function WithHandler(w: World, a: AgentId, h: AgentHandler): World {
    w.(handlers := w.handlers[a := h])
  }

  function WithOp(w: World, s: StreamId, op: Operator): World {
    w.(ops := w.ops[s := op])
  }

  function WithDown(w: World, a: AgentId, p: Pipe): World {
    w.(toAgent := w.toAgent[a := p])
  }

  function WithOut(w: World, s: StreamId, p: Pipe): World {
    w.(toOp := w.toOp[s := p])
  }

  function WithConn(w: World, a: AgentId, c: Conn): World {
    w.(handlers := w.handlers[a := c.h], agents := w.agents[a := c.ag], toAgent := w.toAgent[a := c.p])
  }

  function FirstFrame(h: AgentHandler, m: WireMessage): AgentHandler {
    h.(pc := if m.AgentHello? && m.protocol == PROTOCOL_VERSION then Joining(m) else Ended)
  }

  function RegisterNext(w: World, a: AgentId, hello: WireMessage, found: Option<SessionId>): World
    requires HasAgent(w, a) && hello.AgentHello?
    requires found.Some? ==> found.value in w.sessions && found.value in w.births
  {
    var h := w.handlers[a];
    match found
    case None => WithHandler(w, a, h.(pc := Rejecting(CodeNotFound)))
    case Some(sid) =>
      var session := w.sessions[sid];
      match JoinRefusal(session, w.now, hello.exposes)
      case Some(reason) => WithHandler(w, a, h.(pc := Rejecting(reason)))
      case None =>
        WithHandler(w, a, h.(pc := Greeting, session := Some(sid)))
          .(sessions := w.sessions[sid := Joined(session, hello.device)],
            births := w.births[sid := w.births[sid].(usedBy := Some(a), usedAt := w.now)])
  }

  /** `send_agent_error` writes the websocket directly: no channel exists yet. */
  function WriteDirectly(p: Pipe, m: WireMessage): Pipe {
    p.(wire := p.wire + [m])
  }

  /** The second lock section: the session takes the sender, if it is still there. */
  function AttachNext(w: World, a: AgentId, sid: SessionId): World
    requires HasAgent(w, a)
  {
    var h, p, there := w.handlers[a], w.toAgent[a], sid in w.sessions;
    w.(handlers := w.handlers[a := if there then h.(pc := Serving, attached := true) else h.(pc := Ended)],
       toAgent := w.toAgent[a := if there then p.Start() else p.Stop()],
       sessions := if there then WithAgent(w.sessions, sid, a) else w.sessions)
  }

  function AgentFrame(h: AgentHandler, m: WireMessage): AgentHandler {
    if m.StreamData? || m.StreamClose? || m.StreamError? then h.(pc := LookingUp, hand := Some(m)) else h
  }

  /** After a frame was routed (or found no operator): data goes on, an end also leaves the map. */
  function AfterRouting(h: AgentHandler): AgentHandler
    requires HoldsFrame(h)
  {
    var m := h.hand.value;
    h.(hand := None, pc := if m.StreamData? then Serving else Dropping(StreamOf(m).value))
  }

  function LookUpNext(w: World, a: AgentId, found: Option<SessionId>): World
    requires HasAgent(w, a) && HoldsFrame(w.handlers[a])
    requires FoundStream(w.sessions, StreamOf(w.handlers[a].hand.value).value, found)
  {
    var h := w.handlers[a];
    var m := h.hand.value;
    match found
    case Some(sid) => WithHandler(w, a, h.(pc := Delivering(w.sessions[sid].streams[StreamOf(m).value])))
    case None => WithHandler(w, a, AfterRouting(h).(dropped := h.dropped + [m]))
  }

  function ClearNext(w: World, a: AgentId, sid: SessionId): World
    requires HasAgent(w, a)
  {
    WithHandler(w, a, w.handlers[a].(pc := Ended))
      .(sessions := WithoutAgent(w.sessions, sid),
        toOp := if sid in w.sessions then Notified(w.toOp, w.sessions[sid].streams, AGENT_DISCONNECTED) else w.toOp)
  }

  function OwnNext(c: Conn, own: OwnStep): Conn
    requires OwnEnabled(c, own)
  {
    var h, ag, p := c.h, c.ag, c.p;
    match own
    case Process(step) => Conn(h, AgentNext(ag, p, step), DownAfter(p, step))
    case DownMoves(v) => Conn(h, ag, Moved(p, v))
    case ReceiveHello => Conn(FirstFrame(h, ag.up.wire[0]), ag.(up := ag.up.Receive()), p)
    case HelloLost => Conn(h.(pc := Ended), ag, p)
    case Reject => Conn(h.(pc := Ended), ag, WriteDirectly(p, Error(RefusalText(h.pc.reason))))
    case Greet => Conn(h.(pc := Attaching), ag, p.Send(AgentReady(h.session.value)))
    case ReceiveAgentFrame => Conn(AgentFrame(h, ag.up.wire[0]), ag.(up := ag.up.Receive()), p)
    case LeaveAgentLoop => Conn(h.(pc := Disconnecting), ag, p)
    case AbortAgentOutbound(late) => Conn(h.(pc := Clearing), ag, if late then p else p.Stop())
  }

  function AgentSideNext(w: World, a: AgentId, side: AgentSide): World
    requires HasAgent(w, a) && AgentSideEnabled(w, a, side)
  {
    var h := w.handlers[a];
    match side
    case Own(own) => WithConn(w, a, OwnNext(ConnOf(w, a), own))
    case Register(found) => RegisterNext(w, a, h.pc.hello, found)
    case Attach => AttachNext(w, a, h.session.value)
    case LookUp(found) => LookUpNext(w, a, found)
    case Deliver => WithOut(WithHandler(w, a, AfterRouting(h)), h.pc.peer, w.toOp[h.pc.peer].Send(h.hand.value))
    case DeliverLost => WithHandler(w, a, h.(pc := Disconnecting))
    case DropStream => WithHandler(w, a, h.(pc := Serving)).(sessions := WithoutStream(w.sessions, h.pc.stream))
    case ClearAgent => ClearNext(w, a, h.session.value)
  }

  function CheckNext(w: World, s: StreamId): World
    requires s in w.ops
  {
    var op := w.ops[s];
    WithOp(w, s,
           if OpenRefusal(w.sessions, op.session, op.target, w.now).Some? then op.(pc := Gone)
           else op.(pc := Inserting, agent := w.sessions[op.session].agent, checkedAt := w.now))
  }

  /** The handler of the stream's agent has returned. Only recorded, never decided by. */
  predicate AgentOver(w: World, op: Operator) {
    op.agent.Some? && op.agent.value in w.handlers && w.handlers[op.agent.value].pc.Ended?
  }

  /** The second lock section: the stream enters its session's map, if the session is still there. */
  function InsertNext(w: World, s: StreamId): World
    requires s in w.ops && s in w.toOp
  {
    var op, there := w.ops[s], w.ops[s].session in w.sessions;
    w.(ops := w.ops[s := if there then op.(pc := Opening, inserted := true, late := AgentOver(w, op))
                         else op.(pc := Gone)],
       toOp := if there then w.toOp else w.toOp[s := w.toOp[s].Stop()],
       sessions := if there then WithStream(w.sessions, op.session, s) else w.sessions)
  }

  function OperatorSideNext(w: World, s: StreamId, side: OperatorSide): World
    requires HasOp(w, s) && OperatorSideEnabled(w, s, side)
  {
    var op, out := w.ops[s], w.toOp[s];
    match side
    case Local(step) => WithOut(WithOp(w, s, OperatorNext(op, s, out, step)), s, OutAfter(out, step))
    case Check => CheckNext(w, s)
    case Insert => InsertNext(w, s)
    case SendOpen =>
      WithOut(WithDown(WithOp(w, s, op.(pc := Relaying, started := true)),
                       op.agent.value, AgentPipe(w, s).Send(OpenStream(s, op.target))),
              s, out.Start())
    // The early return skips the removal: the stream stays in its session's map.
    case SendOpenLost => WithOut(WithOp(w, s, op.(pc := Gone)), s, out.Stop())
    case Forward =>
      WithDown(WithOp(w, s, op.(pc := if op.pc.last then Aborting else Relaying, fwd := None)),
               op.agent.value, AgentPipe(w, s).Send(op.fwd.value))
    case ForwardLost => WithOp(w, s, op.(pc := Aborting))
    case TellAgentDone =>
      WithDown(WithOp(w, s, op.(pc := Removing)), op.agent.value, AgentPipe(w, s).TrySend(StreamClose(s)))
    case RemoveOwn => WithOp(w, s, op.(pc := Gone)).(sessions := WithoutStream(w.sessions, s))
  }

  function Next(w: World, st: Step): World
    requires Enabled(w, st)
  {
    match st
    case Tick(d) => w.(now := w.now + d)
    case CreateSession(sid, code, device, allowed, ttl) =>
      w.(sessions := w.sessions[sid := NewSession(code, device, allowed, ttl, w.now)],
         births := w.births[sid := Birth(code, allowed, w.now, EffectiveTtl(ttl), None, 0)])
    case EndSession(sid) =>
      w.(sessions := w.sessions - {sid},
         closers := w.closers[sid := Closer(w.sessions[sid].agent, w.sessions[sid].streams)])
    case TellAgentClosed(sid) =>
      var a := w.closers[sid].agent.value;
      WithDown(w, a, w.toAgent[a].TrySend(Error(SESSION_ENDED)))
        .(closers := w.closers[sid := w.closers[sid].(agent := None)])
    case TellStreamClosed(sid, s) =>
      var peer := w.closers[sid].streams[s];
      WithOut(w, peer, w.toOp[peer].TrySend(StreamError(s, SESSION_ENDED)))
        .(closers := w.closers[sid := w.closers[sid].(streams := w.closers[sid].streams - {s})])
    case StartAgent(a, code, device, exposes) =>
      w.(agents := w.agents[a := NewAgent(code, device, exposes)],
         handlers := w.handlers[a := AgentHandler(AwaitingHello, None, false, None, [])],
         toAgent := w.toAgent[a := NewPipe()])
    case OpenOperator(sid, target) =>
      w.(ops := w.ops[w.nextStream := NewOperator(sid, target)],
         toOp := w.toOp[w.nextStream := NewPipe()],
         nextStream := w.nextStream + 1)
    case ByAgent(a, side) => AgentSideNext(w, a, side)
    case ByOperator(s, side) => OperatorSideNext(w, s, side)
  }
}
