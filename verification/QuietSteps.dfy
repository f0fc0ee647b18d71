/** Steps of an agent connection that change no table: each is checked on the agent's own records. */
module QuietSteps {
  import opened Wire
  import opened Pipes
  import opened AgentProcess
  import opened RelayRules
  import opened RelaySystem
  import opened RelayInvariant

  /** The handler's program counter moves and its pipe at most stops. */
  lemma PcLocal(h: AgentHandler, ag: Agent, p: Pipe, h': AgentHandler, p': Pipe)
    requires AgLocal(h, ag, p)
    requires p' == p || p' == p.Stop()
    requires h' == h.(pc := h'.pc)
    requires
      || (h.pc.AwaitingHello? && h'.pc.Ended?)
      || (h.pc.Joining? && h'.pc.Rejecting? && p' == p)
      || (h.pc.Attaching? && h'.pc.Ended?)
      || (h.pc.Dropping? && h'.pc.Serving?)
      || (h.pc.Serving? && h'.pc.Disconnecting?)
      || (h.pc.Delivering? && h'.pc.Disconnecting?)
      || (h.pc.Disconnecting? && h'.pc.Clearing?)
    ensures AgLocal(h', ag, p') && Quiet(h, ag, p, h', ag, p')
  {
    assert p'.Sent() == p.Sent();
  }

  /** The handler says something that concerns no stream: a refusal, or the greeting. */
  lemma SayLocal(h: AgentHandler, ag: Agent, p: Pipe, h': AgentHandler, p': Pipe, m: WireMessage)
    requires AgLocal(h, ag, p) && StreamOf(m).None? && h' == h.(pc := h'.pc)
    requires p'.Sent() == p.Sent() + [m] && p'.delivered == p.delivered && p'.Bounded()
    requires QuietBeforeAttach(h', p')
    requires (h.pc.Rejecting? && h'.pc.Ended?) || (h.pc.Greeting? && h'.pc.Attaching?)
    ensures AgLocal(h', ag, p') && Quiet(h, ag, p, h', ag, p')
  {
    DownGrammarAppend(p.Sent(), m);
    OpensAppend(p.Sent(), m);
    forall s ensures Payload(p'.Sent(), Some(s)) == Payload(p.Sent(), Some(s)) {
      PayloadAppend(p.Sent(), m, Some(s));
    }
  }

  /** The process or the pipe to it moves. */
  lemma MoveLocal(h: AgentHandler, ag: Agent, p: Pipe, ag': Agent, p': Pipe)
    requires AgLocal(h, ag, p)
    requires p'.Sent() == p.Sent() && p'.Bounded() && QuietBeforeAttach(h, p')
    requires AgentOk(ag', p'.delivered) && Hello(ag') == Hello(ag) && ag'.exposes == ag.exposes
    requires ag'.up.delivered == ag.up.delivered
    ensures AgLocal(h, ag', p') && Quiet(h, ag, p, h, ag', p')
  {
  }

  lemma ProcessLocal(h: AgentHandler, ag: Agent, p: Pipe, step: AgentStep)
    requires AgLocal(h, ag, p) && AgentEnabled(ag, p, step)
    ensures AgLocal(h, AgentNext(ag, p, step), DownAfter(p, step))
    ensures Quiet(h, ag, p, h, AgentNext(ag, p, step), DownAfter(p, step))
  {
    AgentStepKeeps(ag, p, step);
    AgentIdentity(ag, p, step);
    if step.ReceiveFrame? { ReceiveKeepsSent(p); }
    MoveLocal(h, ag, p, AgentNext(ag, p, step), DownAfter(p, step));
  }

  lemma DownMovesLocal(h: AgentHandler, ag: Agent, p: Pipe, v: Move)
    requires AgLocal(h, ag, p) && !v.StartMove? && CanMove(p, v)
    ensures AgLocal(h, ag, Moved(p, v)) && Quiet(h, ag, p, h, ag, Moved(p, v))
  {
    MoveKeepsSent(p, v);
    MoveLocal(h, ag, p, ag, Moved(p, v));
  }

  /** Popping the agent's websocket does not concern the process. */
  lemma PopKeepsAgentOk(ag: Agent, got: seq<WireMessage>)
    requires AgentOk(ag, got) && ag.up.CanReceive()
    ensures AgentOk(ag.(up := ag.up.Receive()), got)
    ensures ag.up.wire[0] in ag.up.Sent()
  {
    var ag' := ag.(up := ag.up.Receive());
    ReceiveKeepsSent(ag.up);
    forall s ensures DownBytesOk(ag', got, s) && UpBytesOk(ag', s) && UpPhaseOk(ag', s) {
      assert DownBytesOk(ag, got, s) && UpBytesOk(ag, s) && UpPhaseOk(ag, s);
    }
    LocalsKeep(ag, ag', got);
    assert Hello(ag') == Hello(ag);
  }

  /** The first frame an agent sends is its own hello. */
  lemma HelloLocal(h: AgentHandler, ag: Agent, p: Pipe)
    requires AgLocal(h, ag, p) && h.pc.AwaitingHello? && ag.up.CanReceive()
    ensures AgLocal(FirstFrame(h, ag.up.wire[0]), ag.(up := ag.up.Receive()), p)
    ensures Quiet(h, ag, p, FirstFrame(h, ag.up.wire[0]), ag.(up := ag.up.Receive()), p)
  {
    var m := ag.up.wire[0];
    PopKeepsAgentOk(ag, p.delivered);
    assert p.delivered == [];
    assert Opens(p.delivered) == {};
    assert StreamOf(m).None?;
    forall s ensures Payload(ag.up.delivered + [m], Some(s)) == Payload(ag.up.delivered, Some(s)) {
      PayloadAppend(ag.up.delivered, m, Some(s));
    }
  }

  lemma RoutePop(h: AgentHandler, ag: Agent, s: StreamId, routed: Bytes)
    requires h.hand.None? && ag.up.CanReceive() && RouteHopOk(h, ag, s, routed)
    ensures RouteHopOk(AgentFrame(h, ag.up.wire[0]), ag.(up := ag.up.Receive()), s, routed)
  {
    var m := ag.up.wire[0];
    PayloadAppend(ag.up.delivered, m, Some(s));
    var d, c := Payload(h.dropped, Some(s)), Chunk(m, Some(s));
    assert routed + d + [] + c == routed + d + c;
    assert routed + d + [] == routed + d;
  }

  /** A frame about a stream is taken into the handler's hand; any other is ignored. */
  lemma FrameLocal(h: AgentHandler, ag: Agent, p: Pipe)
    requires AgLocal(h, ag, p) && h.pc.Serving? && ag.up.CanReceive()
    ensures AgLocal(AgentFrame(h, ag.up.wire[0]), ag.(up := ag.up.Receive()), p)
    ensures Quiet(h, ag, p, AgentFrame(h, ag.up.wire[0]), ag.(up := ag.up.Receive()), p)
  {
    var m := ag.up.wire[0];
    var h', ag' := AgentFrame(h, m), ag.(up := ag.up.Receive());
    PopKeepsAgentOk(ag, p.delivered);
    DownGrammarPrefix(p.Sent(), |p.delivered|);
    assert p.Sent()[..|p.delivered|] == p.delivered;
    forall s, routed | RouteHopOk(h, ag, s, routed) ensures RouteHopOk(h', ag', s, routed) {
      RoutePop(h, ag, s, routed);
    }
  }

  /** No operator has the stream: the frame is dropped. */
  lemma DropLocal(h: AgentHandler, ag: Agent, p: Pipe)
    requires AgLocal(h, ag, p) && h.pc.LookingUp?
    ensures var h' := AfterRouting(h).(dropped := h.dropped + [h.hand.value]);
      AgLocal(h', ag, p) && Quiet(h, ag, p, h', ag, p)
  {
    var m := h.hand.value;
    var h' := AfterRouting(h).(dropped := h.dropped + [m]);
    forall s, routed | RouteHopOk(h, ag, s, routed) ensures RouteHopOk(h', ag, s, routed) {
      PayloadAppend(h.dropped, m, Some(s));
      var d, c := Payload(h.dropped, Some(s)), Chunk(m, Some(s));
      assert routed + d + c == routed + (d + c) + [];
    }
  }

  /** An operator has the stream: the handler holds its sender and the frame. */
  lemma FoundLocal(h: AgentHandler, ag: Agent, p: Pipe, s: StreamId)
    requires AgLocal(h, ag, p) && h.pc.LookingUp? && StreamOf(h.hand.value) == Some(s)
    requires forall m :: m in h.dropped ==> !About(m, s)
    ensures AgLocal(h.(pc := Delivering(s)), ag, p) && Quiet(h, ag, p, h.(pc := Delivering(s)), ag, p)
  {
  }

  /** A refusal or the greeting leaves the handler. */
  lemma TalkLocal(c: Conn, own: OwnStep)
    requires AgLocal(c.h, c.ag, c.p) && OwnEnabled(c, own) && (own.Reject? || own.Greet?)
    ensures var c' := OwnNext(c, own); AgLocal(c'.h, c'.ag, c'.p) && Quiet(c.h, c.ag, c.p, c'.h, c'.ag, c'.p)
  {
    var c' := OwnNext(c, own);
    if own.Reject? {
      var m := Error(RefusalText(c.h.pc.reason));
      assert c'.p.Sent() == c.p.Sent() + [m];
      SayLocal(c.h, c.ag, c.p, c'.h, c'.p, m);
    } else {
      SendAppends(c.p, AgentReady(c.h.session.value));
      SayLocal(c.h, c.ag, c.p, c'.h, c'.p, AgentReady(c.h.session.value));
    }
  }

  /** Every step within one connection keeps its records in order, quietly. */
  lemma OwnLocal(c: Conn, own: OwnStep)
    requires AgLocal(c.h, c.ag, c.p) && OwnEnabled(c, own)
    ensures var c' := OwnNext(c, own); AgLocal(c'.h, c'.ag, c'.p) && Quiet(c.h, c.ag, c.p, c'.h, c'.ag, c'.p)
    ensures OwnNext(c, own).h.dropped == c.h.dropped
  {
    var c' := OwnNext(c, own);
    match own {
      case Process(step) => ProcessLocal(c.h, c.ag, c.p, step);
      case DownMoves(v) => DownMovesLocal(c.h, c.ag, c.p, v);
      case ReceiveHello => HelloLocal(c.h, c.ag, c.p);
      case ReceiveAgentFrame => FrameLocal(c.h, c.ag, c.p);
      case Reject => TalkLocal(c, own);
      case Greet => TalkLocal(c, own);
      case HelloLost => PcLocal(c.h, c.ag, c.p, c'.h, c'.p);
      case LeaveAgentLoop => PcLocal(c.h, c.ag, c.p, c'.h, c'.p);
      case AbortAgentOutbound(_) => PcLocal(c.h, c.ag, c.p, c'.h, c'.p);
    }
  }
}
