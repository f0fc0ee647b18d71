/** What no step ever undoes: handlers, streams, locals and birth records only move forward. */
module Evolution {
  import opened Wire
  import opened Pipes
  import opened AgentProcess
  import opened OperatorStream
  import opened RelayRules
  import opened RelaySystem
  import opened RelayInvariant
  import opened Invariance
  import JoinSteps

  /** How far an agent's handler has come: unregistered, registered, attached, detached. */
  function Stage(h: AgentHandler): nat {
    if h.pc.Ended? then 3 else if IsLive(h) then 2 else if h.session.Some? then 1 else 0
  }

  predicate HandlerEvolves(h: AgentHandler, h': AgentHandler) {
    && Stage(h) <= Stage(h')
    && (h.session.Some? ==> h'.session == h.session)
    && (h.attached ==> h'.attached)
  }

  predicate LocalEvolves(l: AgentProcess.Local, l': AgentProcess.Local) {
    l'.endpoint == l.endpoint && l.read <= l'.read && l.written <= l'.written
  }

  ghost predicate AgentEvolves(ag: Agent, ag': Agent) {
    && ag'.code == ag.code && ag'.exposes == ag.exposes
    && forall s :: s in ag.locals ==> s in ag'.locals && LocalEvolves(ag.locals[s], ag'.locals[s])
  }

  predicate OpEvolves(op: Operator, op': Operator) {
    && op'.session == op.session && op'.target == op.target
    && (op.inserted ==> op'.inserted)
    && (op.inserted ==> op'.late == op.late)
    && (op.started ==> op'.started)
    && (op.pc.Gone? ==> op'.pc.Gone? && op'.inserted == op.inserted && op'.started == op.started)
    && (op.agent.Some? ==> op'.agent == op.agent && op'.checkedAt == op.checkedAt)
    && op.bridge.read <= op'.bridge.read && op.bridge.written <= op'.bridge.written
  }

  /** Agent `a` keeps what it has done. */
  ghost predicate AgentMoves(w: World, w': World, a: AgentId) {
    HasAgent(w, a) ==>
      HasAgent(w', a) && HandlerEvolves(w.handlers[a], w'.handlers[a]) && AgentEvolves(w.agents[a], w'.agents[a])
  }

  ghost predicate OpMoves(w: World, w': World, s: StreamId) {
    s in w.ops ==> s in w'.ops && OpEvolves(w.ops[s], w'.ops[s])
  }

  /* ---------- one step ---------- */

  lemma LoopEvolves(ag: Agent, down: Pipe, step: AgentStep)
    requires AgentEnabled(ag, down, step) && PcOk(ag, down.delivered)
    ensures AgentEvolves(ag, AgentNext(ag, down, step))
  {
    if step.ReceiveFrame? {
      OnFrameShape(ag, down.wire[0]);
    }
  }

  lemma OwnEvolves(c: Conn, own: OwnStep)
    requires OwnEnabled(c, own) && PcOk(c.ag, c.p.delivered) && ServePcOk(c.h)
    ensures HandlerEvolves(c.h, OwnNext(c, own).h) && AgentEvolves(c.ag, OwnNext(c, own).ag)
  {
    if own.Process? {
      LoopEvolves(c.ag, c.p, own.step);
    }
  }

  lemma BridgeEvolves(op: Operator, s: StreamId, out: Pipe, step: OperatorStep)
    requires OperatorEnabled(op, out, step)
    ensures OpEvolves(op, OperatorNext(op, s, out, step)) && OperatorNext(op, s, out, step).agent == op.agent
  {
  }

  /** In `w`, agent `a` is about to be granted session `sid`. */
  ghost predicate GrantedIn(w: World, sid: SessionId, a: AgentId) {
    && a in w.handlers && w.handlers[a].pc.Joining? && w.handlers[a].pc.hello.AgentHello?
    && sid in w.sessions && w.sessions[sid].code == w.handlers[a].pc.hello.code
    && MayJoin(w.sessions[sid], w.now, w.handlers[a].pc.hello.exposes)
  }

  /** In `w`, stream `s` is about to be admitted towards agent `a`. */
  ghost predicate AdmittedIn(w: World, s: StreamId, a: AgentId) {
    && s in w.ops && w.ops[s].pc.Checking?
    && MayOpen(w.sessions, w.ops[s].session, w.ops[s].target, w.now)
    && w.sessions[w.ops[s].session].agent == Some(a)
  }

  /** What any step of agent `a`'s side leaves alone, and what it at most moves forward. */
  ghost predicate SideEffect(w: World, w': World, a: AgentId) {
    && HasAgent(w, a) && HasAgent(w', a)
    && w'.agents.Keys == w.agents.Keys && w'.handlers.Keys == w.handlers.Keys && w'.toAgent.Keys == w.toAgent.Keys
    && HandlerEvolves(w.handlers[a], w'.handlers[a]) && AgentEvolves(w.agents[a], w'.agents[a])
    && (forall b :: HasAgent(w, b) && b != a ==>
          HasAgent(w', b) && w'.handlers[b] == w.handlers[b] && w'.agents[b] == w.agents[b])
    && w'.ops == w.ops && w'.closers == w.closers
    && TablesShrink(w.sessions, w'.sessions) && w'.sessions.Keys == w.sessions.Keys
    && BirthsKeep(w.births, w'.births)
    && w'.births.Keys == w.births.Keys
    && (forall sid :: sid in w.births ==>
          w'.births[sid] == w.births[sid]
          || (GrantedIn(w, sid, a) && w'.births[sid] == w.births[sid].(usedBy := Some(a), usedAt := w.now)))
  }

  ghost predicate TablesShrink(sessions: Sessions, sessions': Sessions) {
    forall sid :: sid in sessions' ==> sid in sessions && sessions'[sid].streams.Keys <= sessions[sid].streams.Keys
  }

  lemma OwnEffect(w: World, w': World, a: AgentId, c: Conn)
    requires HasAgent(w, a) && w' == WithConn(w, a, c)
    requires HandlerEvolves(w.handlers[a], c.h) && AgentEvolves(w.agents[a], c.ag)
    ensures SideEffect(w, w', a)
  {
  }

  /** Only the handler's own record, the sessions and the queues change. */
  lemma HandlerEffect(w: World, w': World, a: AgentId, h: AgentHandler)
    requires HasAgent(w, a) && HandlerEvolves(w.handlers[a], h) && TablesShrink(w.sessions, w'.sessions)
    requires w'.toAgent.Keys == w.toAgent.Keys && w'.sessions.Keys == w.sessions.Keys
    requires w' == w.(handlers := w.handlers[a := h], sessions := w'.sessions, toOp := w'.toOp, toAgent := w'.toAgent)
    ensures SideEffect(w, w', a)
  {
  }

  lemma UseEffect(w: World, w': World, a: AgentId, sid: SessionId, session: Session, h: AgentHandler, birth: Birth)
    requires HasAgent(w, a) && sid in w.sessions && sid in w.births && w.births[sid].usedBy.None?
    requires birth == w.births[sid].(usedBy := Some(a), usedAt := w.now) && session.streams == w.sessions[sid].streams
    requires HandlerEvolves(w.handlers[a], h) && GrantedIn(w, sid, a)
    requires w' == w.(handlers := w.handlers[a := h], sessions := w.sessions[sid := session],
                      births := w.births[sid := birth])
    ensures SideEffect(w, w', a)
  {
  }

  lemma RegisterEffect(w: World, w': World, a: AgentId, found: Option<SessionId>, hello: WireMessage)
    requires HasAgent(w, a) && w.handlers[a].pc == Joining(hello) && hello.AgentHello? && ServePcOk(w.handlers[a])
    requires found.Some? ==> found.value in w.births && SessionInv(w, found.value)
    requires found.Some? ==> w.sessions[found.value].code == hello.code
    requires w' == RegisterNext(w, a, hello, found)
    ensures SideEffect(w, w', a)
  {
    if found.Some? && JoinRefusal(w.sessions[found.value], w.now, hello.exposes).None? {
      var sid := found.value;
      JoinExactly(w.sessions[sid], w.now, hello.exposes);
      UseEffect(w, w', a, sid, Joined(w.sessions[sid], hello.device),
                w.handlers[a].(pc := Greeting, session := Some(sid)),
                w.births[sid].(usedBy := Some(a), usedAt := w.now));
    } else {
      HandlerEffect(w, w', a, w'.handlers[a]);
    }
  }

  lemma AttachEffect(w: World, w': World, a: AgentId, sid: SessionId)
    requires HasAgent(w, a) && w.handlers[a].pc.Attaching? && w.handlers[a].session == Some(sid)
    requires w' == AttachNext(w, a, sid)
    ensures SideEffect(w, w', a)
  {
    if sid in w.sessions {
      HandlerEffect(w, w', a, w.handlers[a].(pc := Serving, attached := true));
    } else {
      HandlerEffect(w, w', a, w.handlers[a].(pc := Ended));
    }
  }

  lemma RouteHasEffect(w: World, w': World, a: AgentId, side: AgentSide)
    requires HasAgent(w, a) && AgentSideEnabled(w, a, side) && w' == AgentSideNext(w, a, side) && IsRouting(side)
    ensures SideEffect(w, w', a)
  {
    var h := w.handlers[a];
    match side {
      case LookUp(found) => LookUpEffect(w, w', a, found);
      case Deliver => HandlerEffect(w, w', a, AfterRouting(h));
      case DeliverLost => HandlerEffect(w, w', a, h.(pc := Disconnecting));
      case DropStream => HandlerEffect(w, w', a, h.(pc := Serving));
    }
  }

  lemma LookUpEffect(w: World, w': World, a: AgentId, found: Option<SessionId>)
    requires HasAgent(w, a) && AgentSideEnabled(w, a, LookUp(found)) && w' == LookUpNext(w, a, found)
    ensures SideEffect(w, w', a)
  {
    HandlerEffect(w, w', a, w'.handlers[a]);
  }

  lemma OwnSideEffect(w: World, w': World, a: AgentId, own: OwnStep, c: Conn)
    requires HasAgent(w, a) && OwnEnabled(ConnOf(w, a), own)
    requires c == OwnNext(ConnOf(w, a), own) && w' == WithConn(w, a, c)
    requires ServePcOk(w.handlers[a]) && PcOk(w.agents[a], w.toAgent[a].delivered)
    ensures SideEffect(w, w', a)
  {
    OwnEvolves(ConnOf(w, a), own);
    OwnEffect(w, w', a, c);
  }

  lemma SideHasEffect(w: World, w': World, a: AgentId, side: AgentSide)
    requires HasAgent(w, a) && AgentSideEnabled(w, a, side)
    requires ServePcOk(w.handlers[a]) && PcOk(w.agents[a], w.toAgent[a].delivered)
    requires side.Register? && side.found.Some? ==> SessionInv(w, side.found.value)
    requires w' == AgentSideNext(w, a, side)
    ensures SideEffect(w, w', a)
  {
    if IsRouting(side) {
      RouteHasEffect(w, w', a, side);
    } else {
      match side {
        case Own(own) => OwnSideEffect(w, w', a, own, OwnNext(ConnOf(w, a), own));
        case Register(found) => RegisterEffect(w, w', a, found, w.handlers[a].pc.hello);
        case Attach => AttachEffect(w, w', a, w.handlers[a].session.value);
        case ClearAgent => HandlerEffect(w, w', a, w.handlers[a].(pc := Ended));
      }
    }
  }

  /** The same for stream `s`: it may enter its own session's map, once. */
  ghost predicate OpEffect(w: World, w': World, s: StreamId) {
    && s in w.ops && w'.ops.Keys == w.ops.Keys && OpEvolves(w.ops[s], w'.ops[s])
    && (forall r :: r in w.ops && r != s ==> w'.ops[r] == w.ops[r])
    && (forall r :: r in w.toOp && r != s ==> r in w'.toOp && w'.toOp[r] == w.toOp[r])
    && w'.handlers == w.handlers && w'.agents == w.agents && w'.toAgent.Keys == w.toAgent.Keys
    && w'.births == w.births && w'.closers == w.closers
    && (w'.ops[s].agent == w.ops[s].agent
        || (w'.ops[s].agent.Some? && w'.ops[s].checkedAt == w.now && AdmittedIn(w, s, w'.ops[s].agent.value)))
    && w'.sessions.Keys == w.sessions.Keys
    && (forall sid :: sid in w'.sessions ==>
          sid in w.sessions
          && w'.sessions[sid].agent == w.sessions[sid].agent
          && w.sessions[sid].streams.Keys <= w'.sessions[sid].streams.Keys + {s}
          && w'.sessions[sid].streams.Keys <= w.sessions[sid].streams.Keys + (if w.ops[s].inserted then {} else {s}))
  }

  lemma PipeEffect(w: World, w': World, s: StreamId, op: Operator)
    requires HasOp(w, s) && OpEvolves(w.ops[s], op)
    requires op.agent == w.ops[s].agent || (op.agent.Some? && op.checkedAt == w.now && AdmittedIn(w, s, op.agent.value))
    requires TablesShrink(w.sessions, w'.sessions)
    requires forall sid :: sid in w'.sessions ==>
               sid in w.sessions && w'.sessions[sid].agent == w.sessions[sid].agent
               && w.sessions[sid].streams.Keys <= w'.sessions[sid].streams.Keys + {s}
    requires forall r :: r in w.toOp && r != s ==> r in w'.toOp && w'.toOp[r] == w.toOp[r]
    requires w'.toAgent.Keys == w.toAgent.Keys && w'.sessions.Keys == w.sessions.Keys
    requires w' == w.(ops := w.ops[s := op], toAgent := w'.toAgent, toOp := w'.toOp, sessions := w'.sessions)
    ensures OpEffect(w, w', s)
  {
  }

  lemma InsertedEffect(w: World, w': World, s: StreamId, op: Operator)
    requires HasOp(w, s) && OpEvolves(w.ops[s], op) && !w.ops[s].inserted && op.agent == w.ops[s].agent
    requires w.ops[s].session in w.sessions
    requires w' == w.(ops := w.ops[s := op], sessions := WithStream(w.sessions, w.ops[s].session, s))
    ensures OpEffect(w, w', s)
  {
  }

  lemma InsertEffect(w: World, w': World, s: StreamId)
    requires HasOp(w, s) && HandlerPcOk(w.ops[s], s) && w.ops[s].pc.Inserting? && w' == InsertNext(w, s)
    ensures OpEffect(w, w', s)
  {
    var op := w.ops[s];
    if op.session in w.sessions {
      InsertedEffect(w, w', s, op.(pc := Opening, inserted := true, late := AgentOver(w, op)));
    } else {
      PipeEffect(w, w', s, op.(pc := Gone));
    }
  }

  lemma SendHasEffect(w: World, w': World, s: StreamId, side: OperatorSide)
    requires HasOp(w, s) && OperatorSideEnabled(w, s, side) && HandlerPcOk(w.ops[s], s)
    requires w' == OperatorSideNext(w, s, side) && IsSend(side)
    ensures OpEffect(w, w', s)
  {
    var op := w.ops[s];
    match side {
      case SendOpen => PipeEffect(w, w', s, op.(pc := Relaying, started := true));
      case Forward => PipeEffect(w, w', s, op.(pc := if op.pc.last then Aborting else Relaying, fwd := None));
      case TellAgentDone => PipeEffect(w, w', s, op.(pc := Removing));
    }
  }

  lemma FallEffect(w: World, w': World, s: StreamId, pc: HandlerPc)
    requires HasOp(w, s) && (w.ops[s].pc.Gone? ==> pc.Gone?) && w' == w.(ops := w.ops[s := w.ops[s].(pc := pc)])
    ensures OpEffect(w, w', s)
  {
    PipeEffect(w, w', s, w.ops[s].(pc := pc));
  }

  lemma AdmitEffect(w: World, w': World, s: StreamId, op: Operator)
    requires HasOp(w, s) && HandlerPcOk(w.ops[s], s) && w.ops[s].pc.Checking?
    requires OpenRefusal(w.sessions, w.ops[s].session, w.ops[s].target, w.now).None?
    requires op == w.ops[s].(pc := Inserting, agent := w.sessions[w.ops[s].session].agent, checkedAt := w.now)
    requires w' == w.(ops := w.ops[s := op])
    ensures OpEffect(w, w', s)
  {
    OpenExactly(w.sessions, w.ops[s].session, w.ops[s].target, w.now);
    assert AdmittedIn(w, s, op.agent.value);
    PipeEffect(w, w', s, op);
  }

  lemma CheckEffect(w: World, w': World, s: StreamId)
    requires HasOp(w, s) && HandlerPcOk(w.ops[s], s) && w.ops[s].pc.Checking? && w' == CheckNext(w, s)
    ensures OpEffect(w, w', s)
  {
    var op := w.ops[s];
    if OpenRefusal(w.sessions, op.session, op.target, w.now).Some? {
      FallEffect(w, w', s, Gone);
    } else {
      AdmitEffect(w, w', s, op.(pc := Inserting, agent := w.sessions[op.session].agent, checkedAt := w.now));
    }
  }

  lemma OpSideHasEffect(w: World, w': World, s: StreamId, side: OperatorSide)
    requires HasOp(w, s) && OperatorSideEnabled(w, s, side) && HandlerPcOk(w.ops[s], s)
    requires w' == OperatorSideNext(w, s, side) && !IsSend(side)
    ensures OpEffect(w, w', s)
  {
    var op := w.ops[s];
    match side {
      case Local(step) =>
        BridgeEvolves(op, s, w.toOp[s], step);
        PipeEffect(w, w', s, OperatorNext(op, s, w.toOp[s], step));
      case Check => CheckEffect(w, w', s);
      case Insert => InsertEffect(w, w', s);
      case SendOpenLost => PipeEffect(w, w', s, op.(pc := Gone));
      case ForwardLost => PipeEffect(w, w', s, op.(pc := Aborting));
      case RemoveOwn => PipeEffect(w, w', s, op.(pc := Gone));
    }
  }

  /** Any step of stream `s`'s side. */
  lemma OperatorHasEffect(w: World, w': World, s: StreamId, side: OperatorSide)
    requires HasOp(w, s) && OperatorSideEnabled(w, s, side) && HandlerPcOk(w.ops[s], s)
    requires w' == OperatorSideNext(w, s, side)
    ensures OpEffect(w, w', s)
  {
    if IsSend(side) { SendHasEffect(w, w', s, side); } else { OpSideHasEffect(w, w', s, side); }
  }

  predicate IsTableStep(st: Step) {
    !st.ByAgent? && !st.ByOperator?
  }

  lemma TableStepAgents(w: World, st: Step, a: AgentId)
    requires Enabled(w, st) && IsTableStep(st)
    ensures AgentMoves(w, Next(w, st), a)
  {
  }

  lemma TableStepOps(w: World, st: Step, s: StreamId)
    requires Enabled(w, st) && IsTableStep(st) && w.nextStream !in w.ops
    ensures OpMoves(w, Next(w, st), s)
  {
  }

  lemma TableStepKeepsOut(w: World, st: Step, s: StreamId)
    requires Enabled(w, st) && IsTableStep(st)
    ensures StaysOut(w, Next(w, st), s)
  {
    var w' := Next(w, st);
    if InSomeMap(w'.sessions, s) {
      var sid :| sid in w'.sessions && s in w'.sessions[sid].streams;
      assert sid in w.sessions && s in w.sessions[sid].streams;
    }
  }

  lemma TableStepBirths(w: World, st: Step)
    requires Enabled(w, st) && IsTableStep(st)
    ensures BirthsKeep(w.births, Next(w, st).births)
  {
  }

  /** No stream that has once been inserted enters a map. */
  ghost predicate StaysOut(w: World, w': World, s: StreamId) {
    s in w.ops && w.ops[s].inserted && InSomeMap(w'.sessions, s) ==> InSomeMap(w.sessions, s)
  }

  lemma EffectKeepsOut(w: World, w': World, s: StreamId)
    requires (exists a :: SideEffect(w, w', a)) || (exists r :: OpEffect(w, w', r))
    ensures StaysOut(w, w', s)
  {
    if s in w.ops && w.ops[s].inserted && InSomeMap(w'.sessions, s) {
      var sid :| sid in w'.sessions && s in w'.sessions[sid].streams;
      assert sid in w.sessions && s in w.sessions[sid].streams;
    }
  }

  /** What one step leaves of everything: the facts the run lemmas chain. */
  ghost predicate MovesForward(w: World, w': World, a: AgentId, s: StreamId) {
    AgentMoves(w, w', a) && OpMoves(w, w', s) && StaysOut(w, w', s) && BirthsKeep(w.births, w'.births)
  }

  lemma SideForward(w: World, w': World, b: AgentId, a: AgentId, s: StreamId)
    requires SideEffect(w, w', b)
    ensures MovesForward(w, w', a, s)
  {
    EffectKeepsOut(w, w', s);
  }

  lemma OpForward(w: World, w': World, r: StreamId, a: AgentId, s: StreamId)
    requires OpEffect(w, w', r)
    ensures MovesForward(w, w', a, s)
  {
    EffectKeepsOut(w, w', s);
  }

  lemma TableForward(w: World, w': World, st: Step, a: AgentId, s: StreamId)
    requires Enabled(w, st) && IsTableStep(st) && w.nextStream !in w.ops && w' == Next(w, st)
    ensures MovesForward(w, w', a, s)
  {
    TableStepAgents(w, st, a);
    TableStepOps(w, st, s);
    TableStepKeepsOut(w, st, s);
    TableStepBirths(w, st);
  }

  lemma AgentForward(w: World, w': World, b: AgentId, side: AgentSide, a: AgentId, s: StreamId)
    requires AgInv(w, b) && AgentSideEnabled(w, b, side) && w' == AgentSideNext(w, b, side)
    requires side.Register? && side.found.Some? ==> SessionInv(w, side.found.value)
    ensures MovesForward(w, w', a, s)
  {
    SideHasEffect(w, w', b, side);
    SideForward(w, w', b, a, s);
  }

  lemma OperatorForward(w: World, w': World, r: StreamId, side: OperatorSide, a: AgentId, s: StreamId)
    requires HasOp(w, r) && HandlerPcOk(w.ops[r], r) && OperatorSideEnabled(w, r, side)
          && w' == OperatorSideNext(w, r, side)
    ensures MovesForward(w, w', a, s)
  {
    OperatorHasEffect(w, w', r, side);
    OpForward(w, w', r, a, s);
  }

  /** What a step needs to know of the world to move forward. */
  ghost predicate Ready(w: World, st: Step) {
    match st
    case ByAgent(b, side) =>
      AgInv(w, b) && (side.Register? && side.found.Some? && side.found.value in w.sessions ==>
          SessionInv(w, side.found.value))
    case ByOperator(r, _) => HasOp(w, r) && HandlerPcOk(w.ops[r], r)
    case _ => w.nextStream !in w.ops
  }

  lemma InvReady(w: World, st: Step)
    requires Inv(w)
    requires st.ByAgent? ==> HasAgent(w, st.agent)
    requires st.ByOperator? ==> HasOp(w, st.stream)
    ensures Ready(w, st)
  {
    match st {
      case ByAgent(_, _) =>
      case ByOperator(r, _) => assert OpInv(w, r);
      case _ => JoinSteps.NextStreamIsFresh(w);
    }
  }

  lemma StepForward(w: World, w': World, st: Step, a: AgentId, s: StreamId)
    requires Ready(w, st) && Enabled(w, st) && w' == Next(w, st)
    ensures MovesForward(w, w', a, s)
  {
    match st {
      case ByAgent(b, side) => AgentForward(w, w', b, side, a, s);
      case ByOperator(r, side) => OperatorForward(w, w', r, side, a, s);
      case _ => TableForward(w, w', st, a, s);
    }
  }

  /* ---------- whole runs ---------- */

  /** Every step of a run finds what it needs. */
  lemma ReadyAt(run: seq<World>, steps: seq<Step>, i: nat)
    requires IsRun(run, steps) && i < |steps|
    ensures Ready(run[i], steps[i]) && Domains(run[i]) && Follows(run, steps, i)
  {
    RunKeeps(run, steps, i);
    assert Follows(run, steps, i);
    InvReady(run[i], steps[i]);
  }

  lemma ForwardAt(run: seq<World>, steps: seq<Step>, i: nat, a: AgentId, s: StreamId)
    requires IsRun(run, steps) && i < |steps|
    ensures MovesForward(run[i], run[i + 1], a, s)
  {
    RunKeeps(run, steps, i);
    assert Follows(run, steps, i);
    InvReady(run[i], steps[i]);
    StepForward(run[i], run[i + 1], steps[i], a, s);
  }

  /** Between any two states of a run, nothing about agent `a` or stream `s` is undone. */
  lemma {:induction false} RunForward(run: seq<World>, steps: seq<Step>, i: nat, j: nat, a: AgentId, s: StreamId)
    requires IsRun(run, steps) && i <= j < |run|
    ensures MovesForward(run[i], run[j], a, s)
    decreases j - i
  {
    if i < j {
      RunForward(run, steps, i, j - 1, a, s);
      ForwardAt(run, steps, j - 1, a, s);
      ForwardTransitive(run[i], run[j - 1], run[j], a, s);
    }
  }

  lemma ForwardTransitive(x: World, y: World, z: World, a: AgentId, s: StreamId)
    requires MovesForward(x, y, a, s) && MovesForward(y, z, a, s)
    ensures MovesForward(x, z, a, s)
  {
    AgentMovesTransitive(x, y, z, a);
  }

  lemma AgentMovesTransitive(x: World, y: World, z: World, a: AgentId)
    requires AgentMoves(x, y, a) && AgentMoves(y, z, a)
    ensures AgentMoves(x, z, a)
  {
  }
}
