/** What a handler, a loop or a task may wait for: a message, or room in an open channel that is full.
    In any other state it has a step, so the guards leave no branch of the code out. */
module Progress {
  import opened Wire
  import opened Pipes
  import opened AgentProcess
  import opened OperatorStream
  import opened RelayRules
  import opened RelaySystem
  import opened RelayInvariant
  import opened Delivery

  predicate IsFull<T>(c: Channel<T>) {
    c.open && |c.queue| >= CAPACITY
  }

  /** A step of the relay's handler itself, not of the agent's process or of the forwarding task. */
  predicate IsHandlerStep(side: AgentSide) {
    side.Own? ==> !side.own.Process? && !side.own.DownMoves?
  }

  ghost predicate HandlerCanStep(w: World, a: AgentId)
    requires HasAgent(w, a)
  {
    exists side :: IsHandlerStep(side) && AgentSideEnabled(w, a, side)
  }

  lemma SomeCode(sessions: Sessions, code: SessionCode)
    ensures exists found :: FoundByCode(sessions, code, found)
  {
    if exists sid :: sid in sessions && sessions[sid].code == code {
      var sid :| sid in sessions && sessions[sid].code == code;
      assert FoundByCode(sessions, code, Some(sid));
    } else {
      assert FoundByCode(sessions, code, None);
    }
  }

  lemma SomeStream(sessions: Sessions, s: StreamId)
    ensures exists found :: FoundStream(sessions, s, found)
  {
    if exists sid :: sid in sessions && s in sessions[sid].streams {
      var sid :| sid in sessions && s in sessions[sid].streams;
      assert FoundStream(sessions, s, Some(sid));
    } else {
      assert FoundStream(sessions, s, None);
    }
  }

  /** What the invariant says of a handler about to step. */
  ghost predicate HandlerReady(w: World, a: AgentId)
    requires HasAgent(w, a)
  {
    var h := w.handlers[a];
    && ServePcOk(h)
    && (h.pc.Joining? ==> h.pc.hello.AgentHello?)
    && (h.pc.Delivering? ==> h.pc.peer in w.toOp)
    && (forall sid :: sid in w.sessions ==> sid in w.births)
  }

  lemma InvHandlerReady(w: World, a: AgentId)
    requires Reachable(w) && HasAgent(w, a)
    ensures HandlerReady(w, a)
  {
    ReachableInv(w);
    assert AgInv(w, a);
    Invariance.PeersExist(w);
    Invariance.FrameTargetsExist(w, a);
  }

  lemma OwnStep(w: World, a: AgentId, own: OwnStep)
    requires HasAgent(w, a) && OwnEnabled(ConnOf(w, a), own) && !own.Process? && !own.DownMoves?
    ensures HandlerCanStep(w, a)
  {
    assert IsHandlerStep(Own(own)) && AgentSideEnabled(w, a, Own(own));
  }

  lemma SideStep(w: World, a: AgentId, side: AgentSide)
    requires HasAgent(w, a) && AgentSideEnabled(w, a, side) && !side.Own?
    ensures HandlerCanStep(w, a)
  {
    assert IsHandlerStep(side);
  }

  lemma SearchStep(w: World, a: AgentId)
    requires HasAgent(w, a) && HandlerReady(w, a) && (w.handlers[a].pc.Joining? || w.handlers[a].pc.LookingUp?)
    ensures HandlerCanStep(w, a)
  {
    var h := w.handlers[a];
    if h.pc.Joining? {
      SomeCode(w.sessions, h.pc.hello.code);
      var found :| FoundByCode(w.sessions, h.pc.hello.code, found);
      SideStep(w, a, Register(found));
    } else {
      var s := StreamOf(h.hand.value).value;
      SomeStream(w.sessions, s);
      var found :| FoundStream(w.sessions, s, found);
      SideStep(w, a, LookUp(found));
    }
  }

  /** The agent's handler is over, has a step, waits for room with the greeting, or waits for room in the
      operator's channel. */
  lemma HandlerWaitsForRoom(w: World, a: AgentId)
    requires Reachable(w) && HasAgent(w, a)
    ensures var h := w.handlers[a];
      || h.pc.Ended? || HandlerCanStep(w, a)
      || (h.pc.Greeting? && !w.toAgent[a].chan.CanSend())
      || (h.pc.Delivering? && h.pc.peer in w.toOp && IsFull(w.toOp[h.pc.peer].chan))
  {
    InvHandlerReady(w, a);
    HandlerSteps(w, a);
  }

  lemma HandlerSteps(w: World, a: AgentId)
    requires HasAgent(w, a) && HandlerReady(w, a)
    ensures var h := w.handlers[a];
      || h.pc.Ended? || HandlerCanStep(w, a)
      || (h.pc.Greeting? && !w.toAgent[a].chan.CanSend())
      || (h.pc.Delivering? && h.pc.peer in w.toOp && IsFull(w.toOp[h.pc.peer].chan))
  {
    var h := w.handlers[a];
    match h.pc {
      case AwaitingHello => OwnStep(w, a, HelloLost);
      case Joining(_) => SearchStep(w, a);
      case Rejecting(_) => OwnStep(w, a, Reject);
      case Greeting => if w.toAgent[a].chan.CanSend() { OwnStep(w, a, Greet); }
      case Attaching => SideStep(w, a, Attach);
      case Serving => OwnStep(w, a, LeaveAgentLoop);
      case LookingUp => SearchStep(w, a);
      case Delivering(peer) =>
        if w.toOp[peer].chan.CanSend() { SideStep(w, a, Deliver); }
        if !w.toOp[peer].chan.open { SideStep(w, a, DeliverLost); }
      case Dropping(_) => SideStep(w, a, DropStream);
      case Disconnecting => OwnStep(w, a, AbortAgentOutbound(false));
      case Clearing => SideStep(w, a, ClearAgent);
      case Ended =>
    }
  }

  /* ---------- operator handlers ---------- */

  predicate IsOperatorHandlerStep(side: OperatorSide) {
    side.Local? ==> side.opStep.ReceiveOperatorFrame? || side.opStep.LeaveOperatorLoop? || side.opStep.AbortOutbound?
  }

  ghost predicate OperatorCanStep(w: World, s: StreamId)
    requires HasOp(w, s)
  {
    exists side :: IsOperatorHandlerStep(side) && OperatorSideEnabled(w, s, side)
  }

  lemma OpStep(w: World, s: StreamId, side: OperatorSide)
    requires HasOp(w, s) && IsOperatorHandlerStep(side) && OperatorSideEnabled(w, s, side)
    ensures OperatorCanStep(w, s)
  {
  }

  lemma OperatorSteps(w: World, s: StreamId)
    requires HasOp(w, s) && HandlerPcOk(w.ops[s], s)
    ensures var op := w.ops[s];
      || op.pc.Gone? || OperatorCanStep(w, s)
      || ((op.pc.Opening? || op.pc.Forwarding?) && op.agent.Some? && IsFull(AgentPipe(w, s).chan))
  {
    var op := w.ops[s];
    match op.pc {
      case Checking => OpStep(w, s, Check);
      case Inserting => OpStep(w, s, Insert);
      case Opening =>
        if AgentPipe(w, s).chan.CanSend() { OpStep(w, s, SendOpen); }
        if !AgentPipe(w, s).chan.open { OpStep(w, s, SendOpenLost); }
      case Relaying => OpStep(w, s, OperatorSide.Local(LeaveOperatorLoop));
      case Forwarding(_) =>
        if AgentPipe(w, s).chan.CanSend() { OpStep(w, s, Forward); }
        if !AgentPipe(w, s).chan.open { OpStep(w, s, ForwardLost); }
      case Aborting => OpStep(w, s, OperatorSide.Local(AbortOutbound(false)));
      case Notifying => OpStep(w, s, TellAgentDone);
      case Removing => OpStep(w, s, RemoveOwn);
      case Gone =>
    }
  }

  /** An operator's handler has returned, has a step, or waits for room in its agent's channel. */
  lemma OperatorWaitsForRoom(w: World, s: StreamId)
    requires Reachable(w) && s in w.ops
    ensures HasOp(w, s)
    ensures var op := w.ops[s];
      || op.pc.Gone? || OperatorCanStep(w, s)
      || ((op.pc.Opening? || op.pc.Forwarding?) && op.agent.Some? && IsFull(AgentPipe(w, s).chan))
  {
    HandlerInOrder(w, s);
    OperatorSteps(w, s);
  }

  lemma HandlerInOrder(w: World, s: StreamId)
    requires Reachable(w) && s in w.ops
    ensures HasOp(w, s) && HandlerPcOk(w.ops[s], s)
  {
    ReachableInv(w);
    assert OpInv(w, s);
  }

  /* ---------- the agent's loop and its readers ---------- */

  /** The loop of an agent in the middle of a frame has a step, or waits for room: of its answer in the channel
      to the relay, of a chunk in the channel to the local target. Its reader tasks wait for the former only. */
  lemma AgentWaitsForRoom(w: World, a: AgentId)
    requires Reachable(w) && HasAgent(w, a)
    ensures var ag, p := w.agents[a], w.toAgent[a];
      && (ag.pc.Dialing? ==> AgentEnabled(ag, p, DialOk) && forall text :: AgentEnabled(ag, p, DialFailed(text)))
      && (ag.pc.Replying? ==>
            AgentEnabled(ag, p, ReplySent) || AgentEnabled(ag, p, ReplyLost) || IsFull(ag.up.chan))
      && (ag.pc.Pushing? ==>
            && ag.pc.stream in ag.locals
            && (AgentEnabled(ag, p, PushDone) || AgentEnabled(ag, p, PushLost)
                || IsFull(ag.locals[ag.pc.stream].toTcp)))
      && (forall s :: s in ag.locals ==>
            || ag.locals[s].reader.Finished? || IsFull(ag.up.chan)
            || AgentEnabled(ag, p, ReadEof(s)) || AgentEnabled(ag, p, ReaderSend(s))
            || AgentEnabled(ag, p, ReaderSendLost(s)))
  {
    PushedExists(w, a);
  }

  lemma PushedExists(w: World, a: AgentId)
    requires Reachable(w) && HasAgent(w, a)
    ensures w.agents[a].pc.Pushing? ==> w.agents[a].pc.stream in w.agents[a].locals
  {
    ReachableInv(w);
    Invariance.FrameTargetsExist(w, a);
  }
}
