/** The inductive invariant of the system. Most of it speaks of the few records one peer owns, so that
    most steps can be checked without looking at the rest of the world. */
module RelayInvariant {
  import opened Wire
  import opened Pipes
  import opened AgentProcess
  import opened OperatorStream
  import opened RelayRules
  import opened RelaySystem

  /* ---------- one agent connection: its handler, its process, and the pipe to it ---------- */

  /** What the handler's program counter says about its other fields. */
  ghost predicate ServePcOk(h: AgentHandler) {
    && (h.pc.AwaitingHello? || h.pc.Joining? || h.pc.Rejecting? ==> h.session.None?)
    && (h.pc.Greeting? || h.pc.Attaching? ==> h.session.Some? && !h.attached)
    && (IsLive(h) ==> h.attached)
    && (h.attached ==> h.session.Some? && (IsLive(h) || h.pc.Ended?))
    && (!h.attached ==> h.hand.None? && h.dropped == [])
    && (h.pc.Serving? || h.pc.Dropping? ==> h.hand.None?)
    && (h.pc.LookingUp? || h.pc.Delivering? ==> HoldsFrame(h))
    && (h.pc.Delivering? ==> StreamOf(h.hand.value) == Some(h.pc.peer))
  }

  /** Until a handler has registered its agent nothing was sent to it; until it is attached its
      forwarding task has not begun. */
  ghost predicate QuietBeforeAttach(h: AgentHandler, p: Pipe) {
    && (h.pc.AwaitingHello? || h.pc.Joining? || h.pc.Rejecting? ==> p.Sent() == [])
    && (h.pc.AwaitingHello? || h.pc.Joining? || h.pc.Rejecting? || h.pc.Greeting? || h.pc.Attaching? ==> !p.running)
  }

  ghost predicate FrameOk(m: WireMessage, asked: set<StreamId>) {
    && StreamOf(m).Some? && StreamOf(m).value in asked && !m.OpenStream?
  }

  /** The handler only ever routes frames of streams its agent was asked to open. */
  ghost predicate FramesOk(h: AgentHandler, asked: set<StreamId>) {
    && (h.hand.Some? ==> FrameOk(h.hand.value, asked))
    && (forall m :: m in h.dropped ==> FrameOk(m, asked))
    && (h.pc.Dropping? ==> h.pc.stream in asked)
    && (h.pc.Delivering? ==> forall m :: m in h.dropped ==> !About(m, h.pc.peer))
  }

  ghost predicate HelloOk(h: AgentHandler, ag: Agent) {
    h.pc.Joining? ==> h.pc.hello == Hello(ag)
  }

  ghost predicate AgLocal(h: AgentHandler, ag: Agent, p: Pipe) {
    && p.Bounded()
    && DownGrammar(p.Sent())
    && AgentOk(ag, p.delivered)
    && ServePcOk(h)
    && HelloOk(h, ag)
    && QuietBeforeAttach(h, p)
    && FramesOk(h, Opens(p.Sent()))
  }

  /** Every byte of `s` taken off the agent's websocket was `routed` to the operator's channel,
      dropped, or is held by the handler, in that order. */
  ghost predicate RouteHopOk(h: AgentHandler, ag: Agent, s: StreamId, routed: Bytes) {
    Payload(ag.up.delivered, Some(s)) == routed + Payload(h.dropped, Some(s)) + ChunkOf(h.hand, Some(s))
  }

  /* ---------- one operator stream, and its link to the agent ---------- */

  ghost predicate OpLocal(op: Operator, s: StreamId, out: Pipe) {
    out.Bounded() && OperatorOk(op, s, out.delivered)
  }

  /** A stream whose handler has not cloned an agent's sender. */
  ghost predicate Unlinked(op: Operator, out: Pipe) {
    UpHopOk(op, []) && Payload(out.Sent(), None) == []
  }

  /** A stream whose handler holds the sender of the agent with these records. */
  ghost predicate Linked(op: Operator, s: StreamId, out: Pipe, h: AgentHandler, ag: Agent, p: Pipe) {
    && UpHopOk(op, Payload(p.Sent(), Some(s)))
    && RouteHopOk(h, ag, s, Payload(out.Sent(), None))
    && h.attached && h.session == Some(op.session)
    && (op.started ==> s in Opens(p.Sent()))
  }

  /** The stream was admitted before its session expired, for an allowed target. */
  ghost predicate Admitted(births: map<SessionId, Birth>, op: Operator) {
    && op.session in births
    && op.checkedAt < births[op.session].createdAt + births[op.session].ttl
    && FindTunnel(births[op.session].allowed, op.target).Some?
  }

  /** The registered agent holds its session's only use, granted before expiry to authorised offers. */
  ghost predicate Registered(births: map<SessionId, Birth>, a: AgentId, session: Option<SessionId>,
                             exposes: seq<TunnelSpec>) {
    session.Some? ==>
      && session.value in births
      && births[session.value].usedBy == Some(a)
      && births[session.value].usedAt < births[session.value].createdAt + births[session.value].ttl
      && OffersAuthorized(births[session.value].allowed, Offers(exposes))
  }

  /* ---------- the world ---------- */

  /** Stream `s` was opened, towards agent `a`, for tunnel `target`. */
  ghost predicate StartedAt(ops: map<StreamId, Operator>, s: StreamId, a: AgentId, target: string) {
    s in ops && ops[s].agent == Some(a) && ops[s].started && ops[s].target == target
  }

  ghost predicate OpensOk(ops: map<StreamId, Operator>, a: AgentId, log: seq<WireMessage>) {
    forall m :: m in log && m.OpenStream? ==> StartedAt(ops, m.stream, a, m.target)
  }

  ghost predicate InSomeMap(sessions: Sessions, s: StreamId) {
    exists sid :: sid in sessions && s in sessions[sid].streams
  }

  /** A frame is dropped only after its stream has left the map for good. */
  ghost predicate DroppedOk(sessions: Sessions, h: AgentHandler) {
    forall m, s :: m in h.dropped && About(m, s) ==> !InSomeMap(sessions, s)
  }

  ghost predicate AgInv(w: World, a: AgentId) {
    && HasAgent(w, a)
    && AgLocal(w.handlers[a], w.agents[a], w.toAgent[a])
    && OpensOk(w.ops, a, w.toAgent[a].Sent())
    && DroppedOk(w.sessions, w.handlers[a])
    && Registered(w.births, a, w.handlers[a].session, w.agents[a].exposes)
  }

  /** A stream's records, `op` and `out`, agree with the rest of the world. */
  ghost predicate OpFits(w: World, s: StreamId, op: Operator, out: Pipe) {
    && OpLocal(op, s, out)
    && match op.agent
       case None => Unlinked(op, out)
       case Some(a) =>
         && HasAgent(w, a)
         && Linked(op, s, out, w.handlers[a], w.agents[a], w.toAgent[a])
         && Admitted(w.births, op)
  }

  ghost predicate OpInv(w: World, s: StreamId) {
    s in w.ops && s in w.toOp && 0 < s < w.nextStream && OpFits(w, s, w.ops[s], w.toOp[s])
  }

  ghost predicate StreamsOk(ops: map<StreamId, Operator>, sid: SessionId, streams: map<StreamId, StreamId>) {
    forall s :: s in streams ==> streams[s] == s && s in ops && ops[s].session == sid && ops[s].inserted
  }

  ghost predicate SessionInv(w: World, sid: SessionId) {
    && sid in w.sessions && sid in w.births
    && var x, b := w.sessions[sid], w.births[sid];
    && x.code == b.code && x.allowed == b.allowed
    && x.expiresAt == b.createdAt + b.ttl
    && (x.consumed <==> b.usedBy.Some?)
    && (x.agent.Some? ==>
          x.agent.value in w.handlers && w.handlers[x.agent.value].session == Some(sid)
              && IsLive(w.handlers[x.agent.value]))
    && StreamsOk(w.ops, sid, x.streams)
  }

  ghost predicate CloserInv(w: World, sid: SessionId) {
    && sid in w.closers && sid in w.births && sid !in w.sessions
    && var x := w.closers[sid];
    && (x.agent.Some? ==> x.agent.value in w.handlers && w.handlers[x.agent.value].attached)
    && StreamsOk(w.ops, sid, x.streams)
  }

  ghost predicate BirthInv(w: World, sid: SessionId) {
    && sid in w.births
    && w.births[sid].ttl >= MIN_TTL
    && w.births[sid].createdAt <= w.now
    && (w.births[sid].usedBy.Some? ==>
          w.births[sid].usedBy.value in w.handlers && w.handlers[w.births[sid].usedBy.value].session == Some(sid))
    && (forall other :: other in w.births && w.births[other].code == w.births[sid].code ==> other == sid)
  }

  ghost predicate Domains(w: World) {
    && w.agents.Keys == w.handlers.Keys == w.toAgent.Keys
    && w.ops.Keys == w.toOp.Keys
    && 0 < w.nextStream
  }

  ghost predicate SessInv(w: World) {
    && (forall sid :: sid in w.sessions ==> SessionInv(w, sid))
    && (forall sid :: sid in w.closers ==> CloserInv(w, sid))
    && (forall sid :: sid in w.births ==> BirthInv(w, sid))
  }

  ghost predicate AgentsInv(w: World) {
    forall a :: a in w.agents ==> AgInv(w, a)
  }

  ghost predicate OpsInv(w: World) {
    forall s :: s in w.ops ==> OpInv(w, s)
  }

  ghost predicate Inv(w: World) {
    Domains(w) && SessInv(w) && AgentsInv(w) && OpsInv(w)
  }

  lemma StartInv()
    ensures Inv(START)
  {
  }

  /* ---------- what untouched parts keep ---------- */

  /** Streams keep what others rely on. */
  ghost predicate OpGrows(op: Operator, op': Operator) {
    && op'.session == op.session && op'.target == op.target
    && (op.inserted ==> op'.inserted)
    && (op.agent.Some? ==> op'.agent == op.agent)
    && (op.started ==> op'.started)
  }

  ghost predicate OpsGrow(ops: map<StreamId, Operator>, ops': map<StreamId, Operator>) {
    forall s :: s in ops ==> s in ops' && OpGrows(ops[s], ops'[s])
  }

  /** No stream that has been opened enters a map. */
  ghost predicate MapsShrink(ops: map<StreamId, Operator>, sessions: Sessions, sessions': Sessions) {
    forall s :: s in ops && ops[s].started && InSomeMap(sessions', s) ==> InSomeMap(sessions, s)
  }

  /** A birth record only changes by being used. */
  ghost predicate BirthsKeep(births: map<SessionId, Birth>, births': map<SessionId, Birth>) {
    forall sid :: sid in births ==>
      && sid in births'
      && births'[sid].code == births[sid].code && births'[sid].allowed == births[sid].allowed
      && births'[sid].createdAt == births[sid].createdAt && births'[sid].ttl == births[sid].ttl
      && (births[sid].usedBy.Some? ==> births'[sid] == births[sid])
  }

  /** Handlers keep what the tables rely on. */
  ghost predicate HandlersGrow(handlers: map<AgentId, AgentHandler>, handlers': map<AgentId, AgentHandler>) {
    forall a :: a in handlers ==>
      && a in handlers'
      && (handlers[a].session.Some? ==> handlers'[a].session == handlers[a].session)
      && (handlers[a].attached ==> handlers'[a].attached)
      && (IsLive(handlers[a]) ==> IsLive(handlers'[a]))
  }

  lemma OpensKeep(ops: map<StreamId, Operator>, ops': map<StreamId, Operator>, a: AgentId, log: seq<WireMessage>)
    requires OpensOk(ops, a, log) && OpsGrow(ops, ops')
    ensures OpensOk(ops', a, log)
  {
  }

  lemma AskedStarted(ops: map<StreamId, Operator>, a: AgentId, log: seq<WireMessage>, s: StreamId)
    requires OpensOk(ops, a, log) && s in Opens(log)
    ensures s in ops && ops[s].started && ops[s].agent == Some(a)
  {
    OpensMember(log, s);
  }

  lemma DroppedKeeps(w: World, sessions: Sessions, a: AgentId)
    requires AgInv(w, a) && MapsShrink(w.ops, w.sessions, sessions)
    ensures DroppedOk(sessions, w.handlers[a])
  {
    var asked := w.toAgent[a].Sent();
    forall m, s | m in w.handlers[a].dropped && About(m, s) ensures !InSomeMap(sessions, s) {
      AskedStarted(w.ops, a, asked, s);
    }
  }

  /** Agent `a`, if it exists, has the same records. */
  ghost predicate AgentUntouched(w: World, w': World, a: AgentId) {
    HasAgent(w, a) ==>
      HasAgent(w', a)
      && w'.agents[a] == w.agents[a] && w'.handlers[a] == w.handlers[a] && w'.toAgent[a] == w.toAgent[a]
  }

  lemma AgFrame(w: World, w': World, a: AgentId)
    requires AgInv(w, a) && AgentUntouched(w, w', a)
    requires OpsGrow(w.ops, w'.ops) && MapsShrink(w.ops, w.sessions, w'.sessions) && BirthsKeep(w.births, w'.births)
    ensures AgInv(w', a)
  {
    OpensKeep(w.ops, w'.ops, a, w.toAgent[a].Sent());
    DroppedKeeps(w, w'.sessions, a);
  }

  ghost predicate OpUntouched(w: World, w': World, s: StreamId) {
    s in w.ops && s in w'.ops && s in w.toOp && s in w'.toOp && w'.ops[s] == w.ops[s] && w'.toOp[s] == w.toOp[s]
  }

  /** A stream that is not touched, and whose agent is not touched. */
  lemma OpFrame(w: World, w': World, s: StreamId)
    requires OpInv(w, s) && OpUntouched(w, w', s) && w.nextStream <= w'.nextStream
    requires BirthsKeep(w.births, w'.births)
    requires w.ops[s].agent.Some? ==> AgentUntouched(w, w', w.ops[s].agent.value)
    ensures OpInv(w', s)
  {
  }

  /** The tables are left alone. */
  lemma SessFrame(w: World, w': World)
    requires SessInv(w)
    requires w'.sessions == w.sessions && w'.closers == w.closers && w'.births == w.births && w.now <= w'.now
    requires OpsGrow(w.ops, w'.ops) && HandlersGrow(w.handlers, w'.handlers)
    ensures SessInv(w')
  {
    forall sid | sid in w.sessions ensures SessionInv(w', sid) { assert SessionInv(w, sid); }
    forall sid | sid in w.closers ensures CloserInv(w', sid) { assert CloserInv(w, sid); }
    forall sid | sid in w.births ensures BirthInv(w', sid) { assert BirthInv(w, sid); }
  }

  /* ---------- a quiet change of one agent connection ---------- */

  /** The agent's records change, but no byte of any stream changes hop, and nobody else can tell. */
  ghost predicate Quiet(h: AgentHandler, ag: Agent, p: Pipe, h': AgentHandler, ag': Agent, p': Pipe) {
    && h'.session == h.session && h'.attached == h.attached && (IsLive(h) ==> IsLive(h'))
    && ag'.exposes == ag.exposes
    && Opens(p'.Sent()) == Opens(p.Sent())
    && (forall m :: m in p'.Sent() && m.OpenStream? ==> m in p.Sent())
    && (forall s :: Payload(p'.Sent(), Some(s)) == Payload(p.Sent(), Some(s)))
    && (forall s, routed :: RouteHopOk(h, ag, s, routed) ==> RouteHopOk(h', ag', s, routed))
  }

  lemma LinkedQuiet(op: Operator, s: StreamId, out: Pipe, h: AgentHandler, ag: Agent, p: Pipe, h': AgentHandler,
                    ag': Agent, p': Pipe)
    requires Linked(op, s, out, h, ag, p) && Quiet(h, ag, p, h', ag', p')
    ensures Linked(op, s, out, h', ag', p')
  {
  }

  ghost predicate OnlyAgent(w: World, w': World, a: AgentId) {
    && HasAgent(w, a) && HasAgent(w', a)
    && w'.agents.Keys == w.agents.Keys && w'.handlers.Keys == w.handlers.Keys && w'.toAgent.Keys == w.toAgent.Keys
    && (forall b :: b in w.agents && b != a ==> AgentUntouched(w, w', b))
    && w'.now == w.now && w'.sessions == w.sessions && w'.births == w.births && w'.closers == w.closers
    && w'.nextStream == w.nextStream && w'.ops == w.ops && w'.toOp == w.toOp
  }

  ghost predicate QuietAt(w: World, w': World, a: AgentId) {
    && OnlyAgent(w, w', a)
    && Quiet(w.handlers[a], w.agents[a], w.toAgent[a], w'.handlers[a], w'.agents[a], w'.toAgent[a])
  }

  lemma QuietOp(w: World, w': World, a: AgentId, s: StreamId)
    requires OpInv(w, s) && QuietAt(w, w', a)
    ensures OpInv(w', s)
  {
    if w.ops[s].agent == Some(a) {
      LinkedQuiet(w.ops[s], s, w.toOp[s], w.handlers[a], w.agents[a], w.toAgent[a],
                  w'.handlers[a], w'.agents[a], w'.toAgent[a]);
    } else {
      OpFrame(w, w', s);
    }
  }

  lemma QuietOther(w: World, w': World, a: AgentId, b: AgentId)
    requires AgInv(w, b) && QuietAt(w, w', a) && b != a
    ensures AgInv(w', b)
  {
    AgFrame(w, w', b);
  }

  lemma QuietOwn(w: World, w': World, a: AgentId)
    requires AgInv(w, a) && QuietAt(w, w', a)
    requires AgLocal(w'.handlers[a], w'.agents[a], w'.toAgent[a])
    requires DroppedOk(w.sessions, w'.handlers[a])
    ensures AgInv(w', a)
  {
  }

  lemma QuietHandlers(w: World, w': World, a: AgentId)
    requires QuietAt(w, w', a) && Domains(w)
    ensures HandlersGrow(w.handlers, w'.handlers) && Domains(w') && OpsGrow(w.ops, w'.ops)
  {
  }

  lemma OnlySess(w: World, w': World, a: AgentId)
    requires SessInv(w) && OnlyAgent(w, w', a) && HandlersGrow(w.handlers, w'.handlers) && OpsGrow(w.ops, w'.ops)
    ensures SessInv(w')
  {
    SessFrame(w, w');
  }

  lemma QuietSess(w: World, w': World, a: AgentId)
    requires SessInv(w) && QuietAt(w, w', a) && Domains(w)
    ensures SessInv(w') && Domains(w')
  {
    QuietHandlers(w, w', a);
    OnlySess(w, w', a);
  }

  /** A quiet change keeps the invariant as soon as the agent's own records are in order. */
  lemma QuietStep(w: World, w': World, a: AgentId)
    requires Inv(w) && QuietAt(w, w', a)
    requires AgLocal(w'.handlers[a], w'.agents[a], w'.toAgent[a])
    requires DroppedOk(w.sessions, w'.handlers[a])
    ensures Inv(w')
  {
    QuietSess(w, w', a);
    forall b | b in w'.agents ensures AgInv(w', b) {
      if b == a { QuietOwn(w, w', a); } else { QuietOther(w, w', a, b); }
    }
    forall s | s in w'.ops ensures OpInv(w', s) {
      QuietOp(w, w', a, s);
    }
  }
}
