/** Frames from an agent, one by one: every frame of a stream that the relay takes off the agent's websocket
    is accepted by the operator's channel, dropped because the stream left the maps, or still held. */
module Frames {
  import opened Wire
  import opened Pipes
  import opened AgentProcess
  import opened OperatorStream
  import opened RelayRules
  import opened RelaySystem
  import opened RelayInvariant
  import opened Invariance
  import opened Evolution
  import opened Delivery
  import opened Grammar
  import opened Cleanup
  import opened Notices

  function Held(m: Option<WireMessage>, s: StreamId): seq<WireMessage> {
    if m.Some? && About(m.value, s) then [m.value] else []
  }

  lemma OnStreamAppend(log: seq<WireMessage>, m: WireMessage, s: StreamId)
    ensures OnStream(log + [m], s) == OnStream(log, s) + Held(Some(m), s)
  {
    assert (log + [m])[..|log|] == log;
  }

  lemma {:induction false} OnStreamMember(log: seq<WireMessage>, m: WireMessage, s: StreamId)
    ensures m in OnStream(log, s) <==> m in log && About(m, s)
    decreases |log|
  {
    if |log| > 0 {
      OnStreamMember(log[..|log| - 1], m, s);
      assert log == log[..|log| - 1] + [log[|log| - 1]];
    }
  }

  /** All frames of `s` taken off the websocket: those `routed` to the operator's channel, those dropped, and
      the one in hand, in that order. */
  ghost predicate FramesRouted(h: AgentHandler, ag: Agent, s: StreamId, routed: seq<WireMessage>) {
    OnStream(ag.up.delivered, s) == routed + OnStream(h.dropped, s) + Held(h.hand, s)
  }

  /* ---------- one step of the agent's side ---------- */

  /** An agent opens no streams. */
  lemma {:induction false} NoOpenSent(log: seq<WireMessage>, s: StreamId, m: WireMessage)
    requires UpPhaseOf(log, s) != Illegal && m in log && About(m, s)
    ensures !m.OpenStream?
    decreases |log|
  {
    var init, last := log[..|log| - 1], log[|log| - 1];
    assert log == init + [last];
    if m in init {
      NoOpenSent(init, s, m);
    }
  }

  lemma PopFrame(h: AgentHandler, ag: Agent, p: Pipe, s: StreamId, routed: seq<WireMessage>)
    requires AgLocal(h, ag, p) && h.pc.Serving? && ag.up.CanReceive() && FramesRouted(h, ag, s, routed)
    ensures FramesRouted(AgentFrame(h, ag.up.wire[0]), ag.(up := ag.up.Receive()), s, routed)
  {
    var m := ag.up.wire[0];
    QuietSteps.PopKeepsAgentOk(ag, p.delivered);
    OnStreamAppend(ag.up.delivered, m, s);
    if About(m, s) {
      PhaseIsLegal(ag, p.delivered, s);
      NoOpenSent(ag.up.Sent(), s, m);
    }
    assert (routed + OnStream(h.dropped, s) + []) + Held(Some(m), s)
        == routed + OnStream(h.dropped, s) + Held(Some(m), s);
  }

  lemma PopHello(h: AgentHandler, ag: Agent, p: Pipe, s: StreamId, routed: seq<WireMessage>)
    requires AgLocal(h, ag, p) && h.pc.AwaitingHello? && ag.up.CanReceive() && FramesRouted(h, ag, s, routed)
    ensures FramesRouted(FirstFrame(h, ag.up.wire[0]), ag.(up := ag.up.Receive()), s, routed)
  {
    QuietSteps.PopKeepsAgentOk(ag, p.delivered);
    assert p.delivered == [] && Opens(p.delivered) == {};
    assert StreamOf(ag.up.wire[0]).None?;
    OnStreamAppend(ag.up.delivered, ag.up.wire[0], s);
  }

  /** Within one connection frames are only taken into the hand. */
  lemma OwnRouted(c: Conn, own: OwnStep, s: StreamId, routed: seq<WireMessage>)
    requires AgLocal(c.h, c.ag, c.p) && OwnEnabled(c, own) && FramesRouted(c.h, c.ag, s, routed)
    ensures FramesRouted(OwnNext(c, own).h, OwnNext(c, own).ag, s, routed)
  {
    match own {
      case Process(step) => AgentIdentity(c.ag, c.p, step);
      case ReceiveHello => PopHello(c.h, c.ag, c.p, s, routed);
      case ReceiveAgentFrame => PopFrame(c.h, c.ag, c.p, s, routed);
      case _ =>
    }
  }

  /** The frame goes to the operator's channel. */
  lemma DeliverRouted(h: AgentHandler, ag: Agent, s: StreamId, routed: seq<WireMessage>)
    requires h.pc.Delivering? && HoldsFrame(h) && StreamOf(h.hand.value) == Some(h.pc.peer)
    requires forall m :: m in h.dropped ==> !About(m, h.pc.peer)
    requires FramesRouted(h, ag, s, routed)
    ensures FramesRouted(AfterRouting(h), ag, s, routed + (if s == h.pc.peer then [h.hand.value] else []))
  {
    if s == h.pc.peer {
      OnStreamOfOthers(h.dropped, s);
      assert routed + [] + [h.hand.value] == (routed + [h.hand.value]) + [] + [];
    } else {
      assert (routed + []) + OnStream(h.dropped, s) + [] == routed + OnStream(h.dropped, s) + [];
    }
  }

  /** No operator has the stream: the frame is dropped. */
  lemma DropRouted(h: AgentHandler, ag: Agent, s: StreamId, routed: seq<WireMessage>)
    requires h.pc.LookingUp? && HoldsFrame(h) && FramesRouted(h, ag, s, routed)
    ensures FramesRouted(AfterRouting(h).(dropped := h.dropped + [h.hand.value]), ag, s, routed)
  {
    OnStreamAppend(h.dropped, h.hand.value, s);
    var dropped, held := OnStream(h.dropped, s), Held(h.hand, s);
    assert routed + dropped + held == routed + (dropped + held) + [];
  }

  /** What agent `a`'s handler makes the channel of `s` accept in this step. */
  function DeliveredBy(w: World, st: Step, a: AgentId, s: StreamId): seq<WireMessage> {
    if st.ByAgent? && st.agent == a && Removal.Delivers(w, st, s) && w.handlers[a].hand.Some?
    then [w.handlers[a].hand.value] else []
  }

  ghost predicate RoutedAt(w: World, a: AgentId, s: StreamId, routed: seq<WireMessage>) {
    if HasAgent(w, a) then FramesRouted(w.handlers[a], w.agents[a], s, routed) else routed == []
  }

  /** Agent `a` and its handler's frames are as they were. */
  lemma SameFrames(w: World, w': World, a: AgentId, s: StreamId, routed: seq<WireMessage>)
    requires HasAgent(w, a) && HasAgent(w', a) && RoutedAt(w, a, s, routed)
    requires w'.agents[a].up.delivered == w.agents[a].up.delivered
    requires w'.handlers[a].dropped == w.handlers[a].dropped && w'.handlers[a].hand == w.handlers[a].hand
    ensures RoutedAt(w', a, s, routed + [])
  {
    assert routed + [] == routed;
  }

  lemma OwnSideRouted(w: World, w': World, a: AgentId, own: OwnStep, c: Conn, s: StreamId, routed: seq<WireMessage>)
    requires AgInv(w, a) && OwnEnabled(ConnOf(w, a), own) && c == OwnNext(ConnOf(w, a), own) && w' == WithConn(w, a, c)
    requires RoutedAt(w, a, s, routed)
    ensures RoutedAt(w', a, s, routed + [])
  {
    OwnRouted(ConnOf(w, a), own, s, routed);
    assert routed + [] == routed;
  }

  lemma RegisterRouted(w: World, w': World, a: AgentId, found: Option<SessionId>, hello: WireMessage, s: StreamId,
                       routed: seq<WireMessage>)
    requires HasAgent(w, a) && hello.AgentHello? && RoutedAt(w, a, s, routed)
    requires found.Some? ==> found.value in w.sessions && found.value in w.births
    requires w' == RegisterNext(w, a, hello, found)
    ensures RoutedAt(w', a, s, routed + [])
  {
    SameFrames(w, w', a, s, routed);
  }

  /** Attaching touches the handler's program counter and its mark, and no frame. */
  lemma AttachHandler(w: World, w': World, a: AgentId, sid: SessionId)
    requires HasAgent(w, a) && w' == AttachNext(w, a, sid)
    ensures HasAgent(w', a) && w'.agents == w.agents
    ensures w'.handlers[a].dropped == w.handlers[a].dropped && w'.handlers[a].hand == w.handlers[a].hand
  {
  }

  lemma AttachRouted(w: World, w': World, a: AgentId, sid: SessionId, s: StreamId, routed: seq<WireMessage>)
    requires HasAgent(w, a) && RoutedAt(w, a, s, routed) && w' == AttachNext(w, a, sid)
    ensures RoutedAt(w', a, s, routed + [])
  {
    AttachHandler(w, w', a, sid);
    SameFrames(w, w', a, s, routed);
  }

  lemma LookUpRouted(w: World, w': World, a: AgentId, found: Option<SessionId>, s: StreamId, routed: seq<WireMessage>)
    requires HasAgent(w, a) && AgentSideEnabled(w, a, LookUp(found)) && w' == LookUpNext(w, a, found)
    requires RoutedAt(w, a, s, routed)
    ensures RoutedAt(w', a, s, routed + [])
  {
    if found.Some? {
      SameFrames(w, w', a, s, routed);
    } else {
      DropRouted(w.handlers[a], w.agents[a], s, routed);
      assert routed + [] == routed;
    }
  }

  lemma SideRouted(w: World, w': World, a: AgentId, side: AgentSide, s: StreamId, routed: seq<WireMessage>)
    requires AgInv(w, a) && AgentSideEnabled(w, a, side) && w' == AgentSideNext(w, a, side)
    requires RoutedAt(w, a, s, routed)
    ensures RoutedAt(w', a, s, routed + DeliveredBy(w, ByAgent(a, side), a, s))
  {
    match side {
      case Own(own) => OwnSideRouted(w, w', a, own, OwnNext(ConnOf(w, a), own), s, routed);
      case Register(found) => RegisterRouted(w, w', a, found, w.handlers[a].pc.hello, s, routed);
      case Attach => AttachRouted(w, w', a, w.handlers[a].session.value, s, routed);
      case LookUp(found) => LookUpRouted(w, w', a, found, s, routed);
      case Deliver => DeliverRouted(w.handlers[a], w.agents[a], s, routed);
      case DeliverLost => SameFrames(w, w', a, s, routed);
      case DropStream => SameFrames(w, w', a, s, routed);
      case ClearAgent => SameFrames(w, w', a, s, routed);
    }
  }

  /* ---------- all steps, all runs ---------- */

  /** A connection that appears in this step has said and received nothing. */
  lemma FreshConnection(w: World, w': World, st: Step, a: AgentId)
    requires Ready(w, st) && Enabled(w, st) && w' == Next(w, st) && !HasAgent(w, a) && HasAgent(w', a)
    ensures w'.agents[a].up.delivered == [] && w'.handlers[a].dropped == [] && w'.handlers[a].hand.None?
  {
    match st {
      case ByAgent(b, side) => SideHasEffect(w, w', b, side);
      case ByOperator(r, side) => OperatorHasEffect(w, w', r, side);
      case _ =>
    }
  }

  lemma OthersRouted(w: World, w': World, st: Step, a: AgentId, s: StreamId, routed: seq<WireMessage>)
    requires Ready(w, st) && Enabled(w, st) && w' == Next(w, st) && (st.ByAgent? ==> st.agent != a)
    requires AgentMoves(w, w', a) && RoutedAt(w, a, s, routed)
    ensures RoutedAt(w', a, s, routed + [])
  {
    assert routed + [] == routed;
    if HasAgent(w, a) {
      OtherConnection(w, w', st, a);
    } else if HasAgent(w', a) {
      FreshConnection(w, w', st, a);
    }
  }

  lemma RoutedStep(w: World, w': World, st: Step, a: AgentId, s: StreamId, routed: seq<WireMessage>)
    requires Ready(w, st) && Enabled(w, st) && w' == Next(w, st) && AgentMoves(w, w', a) && RoutedAt(w, a, s, routed)
    ensures RoutedAt(w', a, s, routed + DeliveredBy(w, st, a, s))
  {
    if st.ByAgent? && st.agent == a {
      SideRouted(w, w', a, st.side, s, routed);
    } else {
      OthersRouted(w, w', st, a, s, routed);
    }
  }

  lemma RunStepRouted(run: seq<World>, steps: seq<Step>, i: nat, a: AgentId, s: StreamId, routed: seq<WireMessage>)
    requires IsRun(run, steps) && i < |steps| && RoutedAt(run[i], a, s, routed)
    ensures RoutedAt(run[i + 1], a, s, routed + DeliveredBy(run[i], steps[i], a, s))
  {
    ForwardAt(run, steps, i, a, s);
    RunKeeps(run, steps, i);
    assert Follows(run, steps, i);
    InvReady(run[i], steps[i]);
    RoutedStep(run[i], run[i + 1], steps[i], a, s, routed);
  }

  /** The frames of `s` that agent `a`'s handler delivers in the first `j` steps. */
  function RoutedUpTo(run: seq<World>, steps: seq<Step>, a: AgentId, s: StreamId, j: nat): seq<WireMessage>
    requires |run| == |steps| + 1 && j < |run|
  {
    if j == 0 then [] else RoutedUpTo(run, steps, a, s, j - 1) + DeliveredBy(run[j - 1], steps[j - 1], a, s)
  }

  lemma {:induction false} RunRouted(run: seq<World>, steps: seq<Step>, j: nat, a: AgentId, s: StreamId)
    requires IsRun(run, steps) && j < |run|
    ensures RoutedAt(run[j], a, s, RoutedUpTo(run, steps, a, s, j))
  {
    if j > 0 {
      RunRouted(run, steps, j - 1, a, s);
      RunStepRouted(run, steps, j - 1, a, s, RoutedUpTo(run, steps, a, s, j - 1));
    }
  }

  /* ---------- what the operator's channel accepted ---------- */

  /** The frames in order, with one notice of the relay's among them, after which at most one frame comes. */
  ghost predicate NoticeAt(sent: seq<WireMessage>, frames: seq<WireMessage>, s: StreamId, k: nat, text: string,
                           pending: nat) {
    && text in {AGENT_DISCONNECTED, SESSION_ENDED}
    && k <= |frames| && |frames| - k + pending <= 1
    && sent == frames[..k] + [StreamError(s, text)] + frames[k..]
  }

  ghost predicate Output(w: World, s: StreamId, frames: seq<WireMessage>, notices: nat) {
    if s !in w.toOp then frames == [] && notices == 0
    else if notices == 0 then w.toOp[s].Sent() == frames
    else exists k: nat, text: string :: NoticeAt(w.toOp[s].Sent(), frames, s, k, text, Removal.Pending(w, s))
  }

  /** If the stream is linked at all, it is to agent `a`. */
  predicate LinkedAtMostTo(w: World, s: StreamId, a: AgentId) {
    s in w.ops && w.ops[s].agent.Some? ==> w.ops[s].agent == Some(a)
  }

  lemma SideChannels(w: World, w': World, b: AgentId, side: AgentSide)
    requires HasAgent(w, b) && AgentSideEnabled(w, b, side) && w' == AgentSideNext(w, b, side)
    ensures w'.toOp.Keys == w.toOp.Keys
  {
    match side {
      case Register(found) => RegisterOut(w, w', b, found, w.handlers[b].pc.hello);
      case Attach => AttachOut(w, w', b, w.handlers[b].session.value);
      case _ =>
    }
  }

  lemma OperatorChannels(w: World, w': World, r: StreamId, side: OperatorSide, s: StreamId)
    requires HasOp(w, r) && HandlerPcOk(w.ops[r], r) && OperatorSideEnabled(w, r, side)
    requires w' == OperatorSideNext(w, r, side) && s !in w.toOp
    ensures s !in w'.toOp
  {
    match side {
      case Check => CheckOut(w, w', r);
      case Insert =>
      case _ =>
    }
  }

  lemma NewChannel(w: World, w': World, st: Step, s: StreamId)
    requires Ready(w, st) && Enabled(w, st) && w' == Next(w, st) && s !in w.toOp
    ensures s in w'.toOp ==> w'.toOp[s].Sent() == []
  {
    match st {
      case ByAgent(b, side) => SideChannels(w, w', b, side);
      case ByOperator(r, side) => OperatorChannels(w, w', r, side, s);
      case _ =>
    }
  }

  /** Nothing is delivered to, and no notice reaches, a channel that does not exist. */
  lemma NothingForNobody(w: World, st: Step, a: AgentId, s: StreamId)
    requires Inv(w) && s !in w.toOp
    ensures DeliveredBy(w, st, a, s) == [] && !IsNotice(w, st, s)
  {
    Removal.OwnerHolds(w, a, s);
  }

  /** A new channel holds nothing. */
  lemma NoChannel(run: seq<World>, steps: seq<Step>, i: nat, a: AgentId, s: StreamId)
    requires IsRun(run, steps) && i < |steps| && s !in run[i].toOp
    ensures DeliveredBy(run[i], steps[i], a, s) == [] && !IsNotice(run[i], steps[i], s)
    ensures s in run[i + 1].toOp ==> run[i + 1].toOp[s].Sent() == []
  {
    RunKeeps(run, steps, i);
    NothingForNobody(run[i], steps[i], a, s);
    assert Follows(run, steps, i);
    InvReady(run[i], steps[i]);
    NewChannel(run[i], run[i + 1], steps[i], s);
  }

  /** Only its own agent's handler delivers to a stream's channel. */
  lemma DeliveredIsOwn(w: World, st: Step, a: AgentId, s: StreamId)
    requires Inv(w) && LinkedAtMostTo(w, s, a)
    ensures Delivered(w, st, s) == DeliveredBy(w, st, a, s)
  {
    if st.ByAgent? { Removal.OwnerHolds(w, st.agent, s); }
  }

  lemma NoticeGrows(sent: seq<WireMessage>, frames: seq<WireMessage>, s: StreamId, k: nat, text: string, pending: nat,
                    more: seq<WireMessage>, left: nat)
    requires NoticeAt(sent, frames, s, k, text, pending) && left + |more| <= pending
    ensures NoticeAt(sent + more, frames + more, s, k, text, left)
  {
    assert (frames + more)[..k] == frames[..k] && (frames + more)[k..] == frames[k..] + more;
  }

  lemma OutputGrows(w: World, w': World, st: Step, a: AgentId, s: StreamId, frames: seq<WireMessage>, notices: nat)
    requires Output(w, s, frames, notices) && s in w.toOp && OutGrows(w, w', s, Appended(w, st, s))
    requires Delivered(w, st, s) == DeliveredBy(w, st, a, s) && notices + (if IsNotice(w, st, s) then 1 else 0) <= 1
    requires notices == 1 ==> Removal.Pending(w', s) + |DeliveredBy(w, st, a, s)| <= Removal.Pending(w, s)
    ensures Output(w', s, frames + DeliveredBy(w, st, a, s), notices + (if IsNotice(w, st, s) then 1 else 0))
  {
    var more := DeliveredBy(w, st, a, s);
    if notices == 1 {
      var k: nat, text: string :| NoticeAt(w.toOp[s].Sent(), frames, s, k, text, Removal.Pending(w, s));
      NoticeGrows(w.toOp[s].Sent(), frames, s, k, text, Removal.Pending(w, s), more, Removal.Pending(w', s));
    } else if IsNotice(w, st, s) {
      var text := if TellsGone(w, st, s) then AGENT_DISCONNECTED else SESSION_ENDED;
      assert more == [] && frames + more == frames;
      assert frames[..|frames|] == frames && frames[|frames|..] == [];
      assert NoticeAt(w'.toOp[s].Sent(), frames, s, |frames|, text, Removal.Pending(w', s));
    }
  }

  /** Once a notice was given, a delivery uses up the one that may still be pending. */
  lemma AfterNotice(run: seq<World>, steps: seq<Step>, i: nat, a: AgentId, s: StreamId)
    requires IsRun(run, steps) && i < |steps| && LinkedAtMostTo(run[i], s, a) && Spent(run[i], s)
    ensures Removal.Pending(run[i + 1], s) + |DeliveredBy(run[i], steps[i], a, s)| <= Removal.Pending(run[i], s)
  {
    RunKeeps(run, steps, i);
    Removal.RemovedLinked(run[i], s);
    Removal.PendingAt(run, steps, i, s);
  }

  lemma OutputStep(run: seq<World>, steps: seq<Step>, i: nat, a: AgentId, s: StreamId, frames: seq<WireMessage>)
    requires IsRun(run, steps) && i < |steps| && LinkedAtMostTo(run[i], s, a)
    requires Output(run[i], s, frames, Notices.Notices(run, steps, s, 0, i))
    ensures Output(run[i + 1], s, frames + DeliveredBy(run[i], steps[i], a, s),
                   Notices.Notices(run, steps, s, 0, i + 1))
  {
    AtMostOneNotice(run, steps, 0, i, s);
    AtMostOneNotice(run, steps, 0, i + 1, s);
    if s !in run[i].toOp {
      NoChannel(run, steps, i, a, s);
    } else {
      RunKeeps(run, steps, i);
      DeliveredIsOwn(run[i], steps[i], a, s);
      OutAt(run, steps, i, s);
      if Spent(run[i], s) { AfterNotice(run, steps, i, a, s); }
      OutputGrows(run[i], run[i + 1], steps[i], a, s, frames, Notices.Notices(run, steps, s, 0, i));
    }
  }

  lemma LinkedBefore(run: seq<World>, steps: seq<Step>, i: nat, a: AgentId, s: StreamId)
    requires IsRun(run, steps) && i < |steps| && LinkedAtMostTo(run[i + 1], s, a)
    ensures LinkedAtMostTo(run[i], s, a)
  {
    ForwardAt(run, steps, i, a, s);
  }

  lemma {:induction false} RunOutput(run: seq<World>, steps: seq<Step>, j: nat, a: AgentId, s: StreamId)
    requires IsRun(run, steps) && j < |run| && LinkedAtMostTo(run[j], s, a)
    ensures Output(run[j], s, RoutedUpTo(run, steps, a, s, j), Notices.Notices(run, steps, s, 0, j))
  {
    if j > 0 {
      LinkedBefore(run, steps, j - 1, a, s);
      RunOutput(run, steps, j - 1, a, s);
      OutputStep(run, steps, j - 1, a, s, RoutedUpTo(run, steps, a, s, j - 1));
    }
  }

  /* ---------- every reachable state ---------- */

  /** What the channel accepted is the agent's frames, with at most one notice of the relay's among them, and
      at most one frame after it. */
  ghost predicate FramesAndNotice(sent: seq<WireMessage>, frames: seq<WireMessage>, s: StreamId) {
    sent == frames || exists k: nat, text: string :: NoticeAt(sent, frames, s, k, text, 0)
  }

  lemma ForgetPending(sent: seq<WireMessage>, frames: seq<WireMessage>, s: StreamId, k: nat, text: string, pending: nat)
    requires NoticeAt(sent, frames, s, k, text, pending)
    ensures NoticeAt(sent, frames, s, k, text, 0)
  {
  }

  /** In every reachable state the frames of a stream that the relay took off its agent's websocket are, in
      this order and nothing left out, data, closes and errors alike: those the operator's channel accepted,
      those dropped, and the one in hand. What the channel accepted besides is at most one notice. */
  lemma FramesReachOperator(w: World, s: StreamId, a: AgentId)
    requires Reachable(w) && s in w.ops && w.ops[s].agent == Some(a)
    ensures HasAgent(w, a) && s in w.toOp
    ensures exists routed ::
              && FramesRouted(w.handlers[a], w.agents[a], s, routed)
              && FramesAndNotice(w.toOp[s].Sent(), routed, s)
    ensures InSomeMap(w.sessions, s) ==> OnStream(w.handlers[a].dropped, s) == []
  {
    ReachableInv(w);
    InvLinks(w, s);
    var run, steps :| IsRun(run, steps) && w in run;
    var j :| 0 <= j < |run| && run[j] == w;
    RunRouted(run, steps, j, a, s);
    RunOutput(run, steps, j, a, s);
    var routed := RoutedUpTo(run, steps, a, s, j);
    if w.toOp[s].Sent() != routed {
      var k: nat, text: string :| NoticeAt(w.toOp[s].Sent(), routed, s, k, text, Removal.Pending(w, s));
      ForgetPending(w.toOp[s].Sent(), routed, s, k, text, Removal.Pending(w, s));
    }
    assert FramesRouted(w.handlers[a], w.agents[a], s, routed) && FramesAndNotice(w.toOp[s].Sent(), routed, s);
    if InSomeMap(w.sessions, s) { OnStreamOfOthers(w.handlers[a].dropped, s); }
  }

  lemma AcceptedFrame(sent: seq<WireMessage>, frames: seq<WireMessage>, s: StreamId, m: WireMessage)
    requires FramesAndNotice(sent, frames, s) && m in frames
    ensures m in sent
  {
    if sent != frames {
      var k: nat, text: string :| NoticeAt(sent, frames, s, k, text, 0);
      assert frames == frames[..k] + frames[k..];
    }
  }

  /** An end of a stream that the relay has taken and dealt with is in the operator's channel, or was dropped
      because the stream was in no map; no frame of the stream is dropped while it is in one. */
  lemma EndsAreDelivered(w: World, s: StreamId, a: AgentId, m: WireMessage)
    requires Reachable(w) && s in w.ops && w.ops[s].agent == Some(a) && HasAgent(w, a) && s in w.toOp
    requires m in w.agents[a].up.delivered && EndsStream(m, s) && w.handlers[a].hand != Some(m)
    ensures m in w.toOp[s].Sent() || m in w.handlers[a].dropped
    ensures m in w.handlers[a].dropped ==> !InSomeMap(w.sessions, s)
  {
    FramesReachOperator(w, s, a);
    var routed :| FramesRouted(w.handlers[a], w.agents[a], s, routed) && FramesAndNotice(w.toOp[s].Sent(), routed, s);
    OnStreamMember(w.agents[a].up.delivered, m, s);
    OnStreamMember(w.handlers[a].dropped, m, s);
    if m in routed { AcceptedFrame(w.toOp[s].Sent(), routed, s, m); }
  }
}
