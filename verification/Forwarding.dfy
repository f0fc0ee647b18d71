/** Frames from an operator, one by one: every frame the relay's handler takes off the operator's websocket
    is accepted by the agent's channel under the stream's own id, in order, until that channel closes. */
module Forwarding {
  import opened Wire
  import opened Pipes
  import opened OperatorStream
  import opened RelayRules
  import opened RelaySystem
  import opened RelayInvariant
  import opened Invariance
  import opened Evolution
  import opened Delivery
  import opened Grammar
  import opened StreamTasks
  import opened Frames

  function Opt(m: Option<WireMessage>): seq<WireMessage> {
    if m.Some? then [m.value] else []
  }

  /* ---------- what the bridge says, and heeds ---------- */

  /** Every message the bridge made: taken by the handler, on the websocket, or in the bridge's hand. */
  function Said(op: Operator): seq<WireMessage> {
    op.taken + op.up + Opt(op.bridge.toSend)
  }

  predicate AllChunks(said: seq<WireMessage>) {
    forall i :: 0 <= i < |said| ==>
      said[i].StreamData? && said[i].stream == BRIDGE_STREAM && 0 < |said[i].bytes| <= OperatorStream.READ_BUFFER
  }

  /** All that was read, in chunks, and a close exactly if the socket has ended. */
  predicate BridgeSays(op: Operator) {
    var said := Said(op);
    && Payload(said, None) == op.bridge.read
    && if op.bridge.eof then
         |said| > 0 && said[|said| - 1] == StreamClose(BRIDGE_STREAM) && AllChunks(said[..|said| - 1])
       else AllChunks(said)
  }

  /** A bridge that goes on has received no message that ends it. */
  predicate BridgeHeeds(op: Operator, got: seq<WireMessage>) {
    op.bridge.alive ==> forall m :: m in got ==> !EndsBridge(m)
  }

  lemma SayMore(op: Operator, op': Operator, m: WireMessage)
    requires BridgeSays(op) && !op.bridge.eof && Said(op') == Said(op) + [m]
    requires if m.StreamData? then
               m.stream == BRIDGE_STREAM && 0 < |m.bytes| <= OperatorStream.READ_BUFFER && !op'.bridge.eof
               && op'.bridge.read == op.bridge.read + m.bytes
             else m == StreamClose(BRIDGE_STREAM) && op'.bridge.eof && op'.bridge.read == op.bridge.read
    ensures BridgeSays(op')
  {
    PayloadAppend(Said(op), m, None);
    assert Said(op')[..|Said(op)|] == Said(op);
  }

  /** The message a step of the bridge makes. */
  function SaidIn(st: OperatorStep): seq<WireMessage> {
    match st
    case BridgeRead(chunk) => [StreamData(BRIDGE_STREAM, chunk)]
    case BridgeEof => [StreamClose(BRIDGE_STREAM)]
    case _ => []
  }

  lemma SaidShift(taken: seq<WireMessage>, up: seq<WireMessage>, m: WireMessage)
    ensures taken + (up + [m]) + [] == taken + up + [m]
    ensures taken + up + [] + [m] == taken + up + [m]
  {
  }

  lemma SaidTaken(taken: seq<WireMessage>, up: seq<WireMessage>, held: seq<WireMessage>)
    requires |up| > 0
    ensures (taken + [up[0]]) + up[1..] + held == taken + up + held
  {
    assert up == [up[0]] + up[1..];
  }

  lemma HandlerSaid(op: Operator, s: StreamId, m: WireMessage)
    requires |op.up| > 0 && m == op.up[0]
    ensures Said(OnOperatorFrame(op, s, m).(up := op.up[1..], taken := op.taken + [m])) == Said(op)
  {
    SaidTaken(op.taken, op.up, Opt(op.bridge.toSend));
  }

  /** What was said before moves on, in order. */
  lemma SaidGrows(op: Operator, s: StreamId, out: Pipe, st: OperatorStep)
    requires OperatorEnabled(op, out, st)
    ensures Said(OperatorNext(op, s, out, st)) == Said(op) + SaidIn(st)
  {
    assert Said(op) + [] == Said(op);
    match st {
      case BridgeRead(chunk) => SaidShift(op.taken, op.up, StreamData(BRIDGE_STREAM, chunk));
      case BridgeEof => SaidShift(op.taken, op.up, StreamClose(BRIDGE_STREAM));
      case BridgeSend => SaidShift(op.taken, op.up, op.bridge.toSend.value);
      case ReceiveOperatorFrame => HandlerSaid(op, s, op.up[0]);
      case _ =>
    }
  }

  lemma ReadGrows(op: Operator, s: StreamId, out: Pipe, st: OperatorStep)
    requires OperatorEnabled(op, out, st)
    ensures var b, b' := op.bridge, OperatorNext(op, s, out, st).bridge;
      && b'.read == (if st.BridgeRead? then b.read + st.chunk else b.read)
      && b'.eof == (b.eof || st.BridgeEof?)
      && (SaidIn(st) != [] ==> !b.eof && (st.BridgeRead? ==> 0 < |st.chunk| <= OperatorStream.READ_BUFFER))
  {
  }

  lemma LocalSays(op: Operator, s: StreamId, out: Pipe, st: OperatorStep)
    requires OperatorEnabled(op, out, st) && BridgeSays(op)
    ensures BridgeSays(OperatorNext(op, s, out, st))
  {
    var op' := OperatorNext(op, s, out, st);
    SaidGrows(op, s, out, st);
    ReadGrows(op, s, out, st);
    if SaidIn(st) == [] {
      assert Said(op) + [] == Said(op);
    } else {
      SayMore(op, op', SaidIn(st)[0]);
    }
  }

  lemma LocalHeeds(op: Operator, s: StreamId, out: Pipe, st: OperatorStep)
    requires OperatorEnabled(op, out, st) && BridgeHeeds(op, out.delivered)
    ensures BridgeHeeds(OperatorNext(op, s, out, st), OutAfter(out, st).delivered)
  {
    if st.OutMove? {
      MoveKeepsSent(out, st.move);
    }
  }

  /* ---------- what the handler forwards ---------- */

  /** `sent` is what the agent's channel, `open` or not, accepted about the stream: its opening, the frames
      taken off the operator's websocket but for the one in hand, and at the end the handler's own close.
      A frame stays in hand only if the channel closed, and no frame is taken after an error. */
  predicate Forwarded(op: Operator, s: StreamId, sent: seq<WireMessage>, open: bool) {
    if !op.started then op.taken == []
    else
      var all := [OpenStream(s, op.target)] + Relabelled(op.taken, s);
      && (sent + Opt(op.fwd) == all
          || (op.fwd.None? && (op.pc.Removing? || op.pc.Gone?) && sent == all + [StreamClose(s)]))
      && (op.fwd.Some? && !op.pc.Forwarding? ==> !open)
      && (op.pc.Relaying? || (op.pc.Forwarding? && !op.pc.last) ==> forall m :: m in op.taken ==> !m.StreamError?)
  }

  lemma TakenFrame(op: Operator, s: StreamId, m: WireMessage, op': Operator)
    requires op' == OnOperatorFrame(op, s, m).(up := op'.up, taken := op.taken + [m]) && op.fwd.None? && op.pc.Relaying?
    ensures Opt(op'.fwd) == Relabel(m, s) && op'.started == op.started && op'.target == op.target
    ensures op'.pc.Relaying? || op'.pc.Forwarding?
    ensures op'.fwd.Some? ==> op'.pc == Forwarding(m.StreamError?)
    ensures op'.pc.Relaying? ==> op'.fwd.None? && !m.StreamError?
  {
  }

  lemma TakesFrame(op: Operator, s: StreamId, m: WireMessage, op': Operator, sent: seq<WireMessage>, open: bool)
    requires op' == OnOperatorFrame(op, s, m).(up := op'.up, taken := op.taken + [m]) && op.pc.Relaying?
    requires HandlerPcOk(op, s) && Forwarded(op, s, sent, open)
    ensures Forwarded(op', s, sent, open)
  {
    var opening := [OpenStream(s, op.target)];
    TakenFrame(op, s, m, op');
    RelabelledAppend(op.taken, m, s);
    assert sent + [] == sent;
    assert opening + Relabelled(op.taken, s) + Relabel(m, s) == opening + (Relabelled(op.taken, s) + Relabel(m, s));
  }

  lemma LocalForwarded(op: Operator, s: StreamId, out: Pipe, st: OperatorStep, sent: seq<WireMessage>, open: bool)
    requires OperatorEnabled(op, out, st) && HandlerPcOk(op, s) && Forwarded(op, s, sent, open)
    ensures Forwarded(OperatorNext(op, s, out, st), s, sent, open)
  {
    if st.ReceiveOperatorFrame? {
      TakesFrame(op, s, op.up[0], OperatorNext(op, s, out, st), sent, open);
    }
  }

  /** The pipe goes on by `more`, as far as `s` is concerned, and does not open again. */
  ghost predicate PipeGrows(p: Pipe, p': Pipe, s: StreamId, more: seq<WireMessage>) {
    OnStream(p'.Sent(), s) == OnStream(p.Sent(), s) + more && (!p.chan.open ==> !p'.chan.open)
  }

  lemma SamePipe(p: Pipe, p': Pipe, s: StreamId)
    requires p'.Sent() == p.Sent() && (!p.chan.open ==> !p'.chan.open)
    ensures PipeGrows(p, p', s, [])
  {
    assert OnStream(p.Sent(), s) + [] == OnStream(p.Sent(), s);
  }

  lemma PipeAccepts(p: Pipe, p': Pipe, s: StreamId, m: WireMessage)
    requires p'.Sent() == p.Sent() + [m] && p'.chan.open == p.chan.open
    ensures PipeGrows(p, p', s, Held(Some(m), s))
  {
    OnStreamAppend(p.Sent(), m, s);
  }

  /** A message written directly to the websocket of a pipe that is still empty. */
  lemma DirectPipe(p: Pipe, m: WireMessage, s: StreamId)
    requires p.Sent() == [] && StreamOf(m).None?
    ensures WriteDirectly(p, m).Sent() == [m] && PipeGrows(p, WriteDirectly(p, m), s, [])
  {
    assert p.InFlight() == [] && p.wire == [] && p.hand.None? && p.chan.queue == [];
    assert p.Sent() + [m] == [m];
    PipeAccepts(p, WriteDirectly(p, m), s, m);
  }

  lemma GreetPipe(p: Pipe, m: WireMessage, s: StreamId)
    requires p.chan.CanSend() && StreamOf(m).None?
    ensures PipeGrows(p, p.Send(m), s, [])
  {
    SendAppends(p, m);
    PipeAccepts(p, p.Send(m), s, m);
  }

  /** A refusal or the greeting is about no stream. */
  lemma TalkPipe(c: Conn, own: OwnStep, s: StreamId)
    requires QuietBeforeAttach(c.h, c.p) && OwnEnabled(c, own) && (own.Reject? || own.Greet?)
    ensures PipeGrows(c.p, OwnNext(c, own).p, s, [])
  {
    if own.Reject? {
      DirectPipe(c.p, Error(RefusalText(c.h.pc.reason)), s);
    } else {
      GreetPipe(c.p, AgentReady(c.h.session.value), s);
    }
  }

  lemma OwnPipe(c: Conn, own: OwnStep, s: StreamId)
    requires AgLocal(c.h, c.ag, c.p) && OwnEnabled(c, own)
    ensures PipeGrows(c.p, OwnNext(c, own).p, s, [])
  {
    if own.Reject? || own.Greet? {
      TalkPipe(c, own, s);
    } else {
      QuietPipe(c, own);
      SamePipe(c.p, OwnNext(c, own).p, s);
    }
  }

  /** Every other step of the connection leaves what was sent, and opens nothing. */
  lemma QuietPipe(c: Conn, own: OwnStep)
    requires OwnEnabled(c, own) && !own.Reject? && !own.Greet?
    ensures OwnNext(c, own).p.Sent() == c.p.Sent() && (!c.p.chan.open ==> !OwnNext(c, own).p.chan.open)
  {
    match own {
      case Process(step) => if step.ReceiveFrame? { ReceiveKeepsSent(c.p); }
      case DownMoves(v) => MoveKeepsSent(c.p, v);
      case AbortAgentOutbound(_) => MoveKeepsSent(c.p, StopMove);
      case _ =>
    }
  }

  /* ---------- steps of the stream's own handler ---------- */

  lemma OpenForwarded(op: Operator, s: StreamId, op': Operator, sent: seq<WireMessage>, open: bool)
    requires !op.started && HandlerPcOk(op, s) && Forwarded(op, s, [], open)
    requires op' == op.(pc := Relaying, started := true)
    requires sent == [] + [OpenStream(s, op.target)]
    ensures Forwarded(op', s, sent, open)
  {
    assert [OpenStream(s, op.target)] + Relabelled([], s) == [OpenStream(s, op.target)] + [];
  }

  lemma SendForwarded(op: Operator, s: StreamId, op': Operator, sent: seq<WireMessage>, open: bool)
    requires op.pc.Forwarding? && HandlerPcOk(op, s) && Forwarded(op, s, sent, open)
    requires op' == op.(pc := if op.pc.last then Aborting else Relaying, fwd := None)
    ensures Forwarded(op', s, sent + Opt(op.fwd), open)
  {
    assert (sent + Opt(op.fwd)) + [] == sent + Opt(op.fwd);
  }

  lemma TellForwarded(op: Operator, s: StreamId, op': Operator, sent: seq<WireMessage>, accepted: bool, open: bool)
    requires op.pc.Notifying? && HandlerPcOk(op, s) && Forwarded(op, s, sent, open) && op' == op.(pc := Removing)
    requires accepted ==> open
    ensures Forwarded(op', s, sent + (if accepted then [StreamClose(s)] else []), open)
  {
    assert sent + [] == sent;
  }

  lemma FallForwarded(op: Operator, s: StreamId, op': Operator, sent: seq<WireMessage>, open: bool)
    requires HandlerPcOk(op, s) && Forwarded(op, s, sent, open) && (op.pc.Forwarding? ==> !open)
    requires op' == op.(pc := op'.pc, inserted := op'.inserted, late := op'.late)
    requires op.pc.Inserting? || op.pc.Opening? || (op.pc.Forwarding? && op'.pc.Aborting?)
             || (op.pc.Removing? && op'.pc.Gone?)
    ensures Forwarded(op', s, sent, open)
  {
  }

  /** Nothing about a stream that is not opened was sent to its agent. */
  lemma NothingSentYet(w: World, s: StreamId, a: AgentId)
    requires Inv(w) && HasAgent(w, a) && s in w.ops && !w.ops[s].started
    ensures OnStream(w.toAgent[a].Sent(), s) == []
  {
    assert AgInv(w, a);
    TableSteps.NotYetOpened(w, s, a);
    OpensMeaning(w.toAgent[a].Sent(), s);
  }

  /** Before its opening nothing about the stream was sent. */
  ghost predicate SilentBefore(w: World, s: StreamId) {
    s in w.ops && !w.ops[s].started && w.ops[s].agent.Some? && HasAgent(w, w.ops[s].agent.value) ==>
      OnStream(w.toAgent[w.ops[s].agent.value].Sent(), s) == []
  }

  ghost predicate ForwardedAt(w: World, s: StreamId) {
    s in w.ops ==>
      && s in w.toOp && BridgeSays(w.ops[s]) && BridgeHeeds(w.ops[s], w.toOp[s].delivered)
      && match w.ops[s].agent
         case None => !w.ops[s].started && w.ops[s].taken == []
         case Some(a) =>
           HasAgent(w, a) && Forwarded(w.ops[s], s, OnStream(w.toAgent[a].Sent(), s), w.toAgent[a].chan.open)
  }

  /** The handler's record moves on to `op'`, and its agent's pipe to `p'`; the bridge does not. */
  lemma HandlerForwarded(w: World, w': World, s: StreamId, a: AgentId, op': Operator, p': Pipe)
    requires ForwardedAt(w, s) && s in w.ops && w.ops[s].agent == Some(a)
    requires s in w'.ops && w'.ops[s] == op' && op'.agent == Some(a) && HasAgent(w', a) && w'.toAgent[a] == p'
    requires s in w'.toOp && w'.toOp[s].delivered == w.toOp[s].delivered
    requires op'.bridge == w.ops[s].bridge && op'.up == w.ops[s].up && op'.taken == w.ops[s].taken
    requires Forwarded(op', s, OnStream(p'.Sent(), s), p'.chan.open)
    ensures ForwardedAt(w', s)
  {
  }

  lemma OpenedPipe(w: World, s: StreamId, a: AgentId, op': Operator, p': Pipe)
    requires HasOp(w, s) && HandlerPcOk(w.ops[s], s) && w.ops[s].pc.Opening? && w.ops[s].agent == Some(a)
          && w.toAgent[a].chan.CanSend() && SilentBefore(w, s)
    requires ForwardedAt(w, s) && op' == w.ops[s].(pc := Relaying, started := true)
    requires p' == w.toAgent[a].Send(OpenStream(s, w.ops[s].target))
    ensures Forwarded(op', s, OnStream(p'.Sent(), s), p'.chan.open)
  {
    var m, p := OpenStream(s, w.ops[s].target), w.toAgent[a];
    SendAppends(p, m);
    OnStreamAppend(p.Sent(), m, s);
    OpenForwarded(w.ops[s], s, op', OnStream(p'.Sent(), s), p.chan.open);
  }

  lemma ForwardedPipe(op: Operator, s: StreamId, p: Pipe, op': Operator, p': Pipe)
    requires HandlerPcOk(op, s) && op.pc.Forwarding? && p.chan.CanSend()
    requires Forwarded(op, s, OnStream(p.Sent(), s), p.chan.open)
    requires op' == op.(pc := if op.pc.last then Aborting else Relaying, fwd := None) && p' == p.Send(op.fwd.value)
    ensures Forwarded(op', s, OnStream(p'.Sent(), s), p'.chan.open)
  {
    SendAppends(p, op.fwd.value);
    OnStreamAppend(p.Sent(), op.fwd.value, s);
    SendForwarded(op, s, op', OnStream(p.Sent(), s), p.chan.open);
  }

  lemma ToldPipe(op: Operator, s: StreamId, p: Pipe, op': Operator, p': Pipe)
    requires HandlerPcOk(op, s) && op.pc.Notifying? && Forwarded(op, s, OnStream(p.Sent(), s), p.chan.open)
    requires op' == op.(pc := Removing) && p' == p.TrySend(StreamClose(s))
    ensures Forwarded(op', s, OnStream(p'.Sent(), s), p'.chan.open)
  {
    var sent := OnStream(p.Sent(), s);
    TrySendAppendsOrDrops(p, StreamClose(s));
    OnStreamAppend(p.Sent(), StreamClose(s), s);
    assert sent + [] == sent;
    TellForwarded(op, s, op', sent, p.chan.CanSend(), p.chan.open);
  }

  lemma SendOpenForwarded(w: World, w': World, s: StreamId, a: AgentId)
    requires HasOp(w, s) && HandlerPcOk(w.ops[s], s) && w.ops[s].agent == Some(a)
          && OperatorSideEnabled(w, s, SendOpen)
    requires w' == OperatorSideNext(w, s, SendOpen) && ForwardedAt(w, s) && SilentBefore(w, s)
    ensures ForwardedAt(w', s)
  {
    OpenedPipe(w, s, a, w'.ops[s], w'.toAgent[a]);
    HandlerForwarded(w, w', s, a, w'.ops[s], w'.toAgent[a]);
  }

  lemma ForwardSideForwarded(w: World, w': World, s: StreamId, a: AgentId)
    requires HasOp(w, s) && HandlerPcOk(w.ops[s], s) && w.ops[s].agent == Some(a) && OperatorSideEnabled(w, s, Forward)
    requires w' == OperatorSideNext(w, s, Forward) && ForwardedAt(w, s)
    ensures ForwardedAt(w', s)
  {
    ForwardedPipe(w.ops[s], s, w.toAgent[a], w'.ops[s], w'.toAgent[a]);
    HandlerForwarded(w, w', s, a, w'.ops[s], w'.toAgent[a]);
  }

  lemma TellSideForwarded(w: World, w': World, s: StreamId, a: AgentId)
    requires HasOp(w, s) && HandlerPcOk(w.ops[s], s) && w.ops[s].agent == Some(a)
          && OperatorSideEnabled(w, s, TellAgentDone)
    requires w' == OperatorSideNext(w, s, TellAgentDone) && ForwardedAt(w, s)
    ensures ForwardedAt(w', s)
  {
    ToldPipe(w.ops[s], s, w.toAgent[a], w'.ops[s], w'.toAgent[a]);
    HandlerForwarded(w, w', s, a, w'.ops[s], w'.toAgent[a]);
  }

  lemma PushForwarded(w: World, w': World, s: StreamId, side: OperatorSide, a: AgentId)
    requires HasOp(w, s) && HandlerPcOk(w.ops[s], s) && OperatorSideEnabled(w, s, side)
          && w' == OperatorSideNext(w, s, side)
    requires IsSend(side) && ForwardedAt(w, s) && w.ops[s].agent == Some(a) && SilentBefore(w, s)
    ensures ForwardedAt(w', s)
  {
    match side {
      case SendOpen => SendOpenForwarded(w, w', s, a);
      case Forward => ForwardSideForwarded(w, w', s, a);
      case TellAgentDone => TellSideForwarded(w, w', s, a);
    }
  }

  lemma CheckForwarded(w: World, w': World, s: StreamId)
    requires HasOp(w, s) && HandlerPcOk(w.ops[s], s) && w.ops[s].pc.Checking? && w' == CheckNext(w, s)
    requires ForwardedAt(w, s) && (s in w'.ops && w'.ops[s].agent.Some? ==> HasAgent(w', w'.ops[s].agent.value))
    ensures ForwardedAt(w', s)
  {
  }

  /** The insertion moves the handler on or ends it; at most its own pipe stops. */
  lemma InsertRecords(w: World, w': World, s: StreamId)
    requires HasOp(w, s) && w.ops[s].pc.Inserting? && w' == InsertNext(w, s)
    ensures s in w'.ops && s in w'.toOp && w'.toOp[s].delivered == w.toOp[s].delivered
    ensures w'.agents == w.agents && w'.handlers == w.handlers && w'.toAgent == w.toAgent
    ensures w'.ops[s] == w.ops[s].(pc := w'.ops[s].pc, inserted := w'.ops[s].inserted, late := w'.ops[s].late)
  {
  }

  lemma InsertForwarded(w: World, w': World, s: StreamId)
    requires HasOp(w, s) && HandlerPcOk(w.ops[s], s) && w.ops[s].pc.Inserting? && w' == InsertNext(w, s)
    requires ForwardedAt(w, s)
    ensures ForwardedAt(w', s)
  {
    var a := w.ops[s].agent.value;
    InsertRecords(w, w', s);
    FallForwarded(w.ops[s], s, w'.ops[s], OnStream(w.toAgent[a].Sent(), s), w.toAgent[a].chan.open);
    HandlerForwarded(w, w', s, a, w'.ops[s], w.toAgent[a]);
  }

  lemma LocalSideForwarded(w: World, w': World, s: StreamId, step: OperatorStep)
    requires HasOp(w, s) && HandlerPcOk(w.ops[s], s) && OperatorEnabled(w.ops[s], w.toOp[s], step)
    requires w' == WithOut(WithOp(w, s, OperatorNext(w.ops[s], s, w.toOp[s], step)), s, OutAfter(w.toOp[s], step))
    requires ForwardedAt(w, s)
    ensures ForwardedAt(w', s)
  {
    LocalSays(w.ops[s], s, w.toOp[s], step);
    LocalHeeds(w.ops[s], s, w.toOp[s], step);
    TableSteps.OperatorIdentity(w.ops[s], s, w.toOp[s], step);
    match w.ops[s].agent {
      case None =>
      case Some(a) => LocalForwarded(w.ops[s], s, w.toOp[s], step, OnStream(w.toAgent[a].Sent(), s),
                                     w.toAgent[a].chan.open);
    }
  }

  /** Only the program counter falls, and the stream's own pipe at most stops. */
  lemma PcForwarded(w: World, w': World, s: StreamId, a: AgentId, op': Operator)
    requires HasOp(w, s) && HandlerPcOk(w.ops[s], s) && w.ops[s].agent == Some(a) && ForwardedAt(w, s)
    requires op' == w.ops[s].(pc := op'.pc) && w'.ops == w.ops[s := op'] && w'.agents == w.agents
          && w'.handlers == w.handlers && w'.toAgent == w.toAgent
    requires s in w'.toOp && w'.toOp[s].delivered == w.toOp[s].delivered
    requires (w.ops[s].pc.Opening? && op'.pc.Gone?) || (w.ops[s].pc.Removing? && op'.pc.Gone?)
             || (w.ops[s].pc.Forwarding? && op'.pc.Aborting? && !w.toAgent[a].chan.open)
    ensures ForwardedAt(w', s)
  {
    FallForwarded(w.ops[s], s, op', OnStream(w.toAgent[a].Sent(), s), w.toAgent[a].chan.open);
    HandlerForwarded(w, w', s, a, op', w.toAgent[a]);
  }

  lemma FallSideForwarded(w: World, w': World, s: StreamId, side: OperatorSide)
    requires HasOp(w, s) && HandlerPcOk(w.ops[s], s) && OperatorSideEnabled(w, s, side)
          && w' == OperatorSideNext(w, s, side)
    requires side.SendOpenLost? || side.ForwardLost? || side.RemoveOwn?
    requires ForwardedAt(w, s)
    ensures ForwardedAt(w', s)
  {
    var op, a := w.ops[s], w.ops[s].agent.value;
    match side {
      case SendOpenLost => PcForwarded(w, w', s, a, op.(pc := Gone));
      case ForwardLost => PcForwarded(w, w', s, a, op.(pc := Aborting));
      case RemoveOwn => PcForwarded(w, w', s, a, op.(pc := Gone));
    }
  }

  lemma OwnForwarded(w: World, w': World, s: StreamId, side: OperatorSide)
    requires HasOp(w, s) && HandlerPcOk(w.ops[s], s) && OperatorSideEnabled(w, s, side)
          && w' == OperatorSideNext(w, s, side)
    requires !IsSend(side) && ForwardedAt(w, s)
    requires s in w'.ops && w'.ops[s].agent.Some? ==> HasAgent(w', w'.ops[s].agent.value)
    ensures ForwardedAt(w', s)
  {
    if side.Check? {
      CheckForwarded(w, w', s);
    } else if side.Insert? {
      InsertForwarded(w, w', s);
    } else if side.Local? {
      LocalSideForwarded(w, w', s, side.opStep);
    } else {
      FallSideForwarded(w, w', s, side);
    }
  }

  /* ---------- steps of anybody else ---------- */

  /** The stream's own record, what its bridge received, and what its agent's pipe says of it are as they were. */
  lemma OtherForwarded(w: World, w': World, s: StreamId)
    requires ForwardedAt(w, s) && s in w.ops && s in w'.ops && w'.ops[s] == w.ops[s]
    requires s in w'.toOp && w'.toOp[s].delivered == w.toOp[s].delivered
    requires w.ops[s].agent.Some? ==>
               HasAgent(w', w.ops[s].agent.value)
               && PipeGrows(w.toAgent[w.ops[s].agent.value], w'.toAgent[w.ops[s].agent.value], s, [])
    ensures ForwardedAt(w', s)
  {
    if w.ops[s].agent.Some? {
      var sent := OnStream(w.toAgent[w.ops[s].agent.value].Sent(), s);
      assert sent + [] == sent;
    }
  }

  lemma OwnSidePipes(w: World, w': World, b: AgentId, own: OwnStep, c: Conn, a: AgentId, s: StreamId)
    requires AgInv(w, b) && OwnEnabled(ConnOf(w, b), own) && c == OwnNext(ConnOf(w, b), own) && w' == WithConn(w, b, c)
    requires HasAgent(w, a)
    ensures a in w'.toAgent && PipeGrows(w.toAgent[a], w'.toAgent[a], s, [])
  {
    OwnPipe(ConnOf(w, b), own, s);
    if a != b { SamePipe(w.toAgent[a], w'.toAgent[a], s); }
  }

  lemma RoutingPipes(w: World, w': World, b: AgentId, side: AgentSide)
    requires HasAgent(w, b) && AgentSideEnabled(w, b, side) && w' == AgentSideNext(w, b, side)
    requires IsRouting(side) || side.ClearAgent?
    ensures w'.toAgent == w.toAgent
  {
    match side {
      case LookUp(found) => LookUpPipes(w, w', b, found);
      case Deliver =>
      case DeliverLost =>
      case DropStream =>
      case ClearAgent =>
    }
  }

  lemma LookUpPipes(w: World, w': World, b: AgentId, found: Option<SessionId>)
    requires HasAgent(w, b) && AgentSideEnabled(w, b, LookUp(found)) && w' == LookUpNext(w, b, found)
    ensures w'.toAgent == w.toAgent
  {
  }

  /** What an agent's side does to the pipes to agents. */
  lemma SidePipes(w: World, w': World, b: AgentId, side: AgentSide, a: AgentId, s: StreamId)
    requires AgInv(w, b) && AgentSideEnabled(w, b, side) && w' == AgentSideNext(w, b, side) && HasAgent(w, a)
    ensures a in w'.toAgent && PipeGrows(w.toAgent[a], w'.toAgent[a], s, [])
  {
    if side.Own? {
      OwnSidePipes(w, w', b, side.own, OwnNext(ConnOf(w, b), side.own), a, s);
    } else {
      if side.Register? {
        RegisterPipes(w, w', b, side.found, w.handlers[b].pc.hello);
      } else if side.Attach? {
        AttachPipes(w, w', b, w.handlers[b].session.value, a);
      } else {
        RoutingPipes(w, w', b, side);
      }
      SamePipe(w.toAgent[a], w'.toAgent[a], s);
    }
  }

  lemma RegisterPipes(w: World, w': World, b: AgentId, found: Option<SessionId>, hello: WireMessage)
    requires HasAgent(w, b) && hello.AgentHello?
          && (found.Some? ==> found.value in w.sessions && found.value in w.births)
    requires w' == RegisterNext(w, b, hello, found)
    ensures w'.toAgent == w.toAgent
  {
  }

  lemma AttachPipe(w: World, w': World, b: AgentId, sid: SessionId) returns (p: Pipe)
    requires HasAgent(w, b) && w' == AttachNext(w, b, sid)
    ensures w'.toAgent == w.toAgent[b := p] && (p == w.toAgent[b].Start() || p == w.toAgent[b].Stop())
  {
    p := if sid in w.sessions then w.toAgent[b].Start() else w.toAgent[b].Stop();
  }

  lemma AttachPipes(w: World, w': World, b: AgentId, sid: SessionId, a: AgentId)
    requires HasAgent(w, b) && HasAgent(w, a) && w' == AttachNext(w, b, sid)
    ensures a in w'.toAgent && w'.toAgent[a].Sent() == w.toAgent[a].Sent()
    ensures !w.toAgent[a].chan.open ==> !w'.toAgent[a].chan.open
  {
    var p := AttachPipe(w, w', b, sid);
    Notices.StartStopOut(w.toAgent[b]);
  }

  /** What it does to the pipes to operators: at most a message more. */
  lemma SideOuts(w: World, w': World, b: AgentId, side: AgentSide, s: StreamId)
    requires HasAgent(w, b) && AgentSideEnabled(w, b, side) && w' == AgentSideNext(w, b, side) && s in w.toOp
    ensures s in w'.toOp && w'.toOp[s].delivered == w.toOp[s].delivered
  {
    match side {
      case Register(found) => Notices.RegisterOut(w, w', b, found, w.handlers[b].pc.hello);
      case Attach => Notices.AttachOut(w, w', b, w.handlers[b].session.value);
      case _ =>
    }
  }

  lemma SideForwarded(w: World, w': World, b: AgentId, side: AgentSide, s: StreamId)
    requires Ready(w, ByAgent(b, side)) && AgentSideEnabled(w, b, side) && w' == AgentSideNext(w, b, side)
          && ForwardedAt(w, s)
    ensures ForwardedAt(w', s)
  {
    SideHasEffect(w, w', b, side);
    if s in w.ops {
      SideOuts(w, w', b, side, s);
      if w.ops[s].agent.Some? { SidePipes(w, w', b, side, w.ops[s].agent.value, s); }
      OtherForwarded(w, w', s);
    }
  }

  /** Another stream's handler sends its agent nothing about this one. */
  lemma OperatorPipes(w: World, w': World, r: StreamId, side: OperatorSide, a: AgentId, s: StreamId)
    requires HasOp(w, r) && HandlerPcOk(w.ops[r], r) && OperatorSideEnabled(w, r, side) && r != s && HasAgent(w, a)
    requires w' == OperatorSideNext(w, r, side)
    ensures a in w'.toAgent && PipeGrows(w.toAgent[a], w'.toAgent[a], s, [])
  {
    if IsSend(side) {
      SendPipes(w, w', r, side, a, s);
    } else {
      StillPipes(w, w', r, side);
      SamePipe(w.toAgent[a], w'.toAgent[a], s);
    }
  }

  lemma StillPipes(w: World, w': World, r: StreamId, side: OperatorSide)
    requires HasOp(w, r) && OperatorSideEnabled(w, r, side) && w' == OperatorSideNext(w, r, side) && !IsSend(side)
    ensures w'.toAgent == w.toAgent
  {
    match side {
      case Check =>
      case Insert =>
      case _ =>
    }
  }

  lemma SendPipes(w: World, w': World, r: StreamId, side: OperatorSide, a: AgentId, s: StreamId)
    requires HasOp(w, r) && HandlerPcOk(w.ops[r], r) && OperatorSideEnabled(w, r, side) && r != s && HasAgent(w, a)
    requires w' == OperatorSideNext(w, r, side) && IsSend(side)
    ensures a in w'.toAgent && PipeGrows(w.toAgent[a], w'.toAgent[a], s, [])
  {
    var p := AgentPipe(w, r);
    if a != w.ops[r].agent.value {
      SamePipe(w.toAgent[a], w'.toAgent[a], s);
    } else {
      match side {
        case SendOpen =>
          SendAppends(p, OpenStream(r, w.ops[r].target));
          PipeAccepts(p, w'.toAgent[a], s, OpenStream(r, w.ops[r].target));
        case Forward =>
          SendAppends(p, w.ops[r].fwd.value);
          PipeAccepts(p, w'.toAgent[a], s, w.ops[r].fwd.value);
        case TellAgentDone => TriedPipe(p, s, StreamClose(r));
      }
    }
  }

  lemma TriedPipe(p: Pipe, s: StreamId, m: WireMessage)
    requires !About(m, s)
    ensures PipeGrows(p, p.TrySend(m), s, [])
  {
    TrySendAppendsOrDrops(p, m);
    if p.chan.CanSend() { PipeAccepts(p, p.TrySend(m), s, m); } else { SamePipe(p, p, s); }
  }

  lemma OperatorForwarded(w: World, w': World, r: StreamId, side: OperatorSide, s: StreamId)
    requires HasOp(w, r) && HandlerPcOk(w.ops[r], r) && OperatorSideEnabled(w, r, side) && r != s
    requires w' == OperatorSideNext(w, r, side) && ForwardedAt(w, s)
    ensures ForwardedAt(w', s)
  {
    OperatorHasEffect(w, w', r, side);
    if s in w.ops {
      if w.ops[s].agent.Some? { OperatorPipes(w, w', r, side, w.ops[s].agent.value, s); }
      OtherForwarded(w, w', s);
    }
  }

  lemma TablePipes(w: World, w': World, st: Step, a: AgentId, s: StreamId)
    requires Enabled(w, st) && IsTableStep(st) && w' == Next(w, st) && HasAgent(w, a)
    ensures HasAgent(w', a) && PipeGrows(w.toAgent[a], w'.toAgent[a], s, [])
  {
    if st.TellAgentClosed? && w.closers[st.sid].agent.value == a {
      TriedPipe(w.toAgent[a], s, Error(SESSION_ENDED));
    } else {
      SamePipe(w.toAgent[a], w'.toAgent[a], s);
    }
  }

  lemma TableOuts(w: World, w': World, st: Step, s: StreamId)
    requires Enabled(w, st) && IsTableStep(st) && w' == Next(w, st) && s in w.ops && s in w.toOp && s != w.nextStream
    ensures s in w'.ops && w'.ops[s] == w.ops[s]
    ensures s in w'.toOp && w'.toOp[s].delivered == w.toOp[s].delivered
  {
  }

  lemma NewOperatorSays(sid: SessionId, target: string)
    ensures BridgeSays(NewOperator(sid, target))
  {
    assert Said(NewOperator(sid, target)) == [];
  }

  lemma TableForwarded(w: World, w': World, st: Step, s: StreamId)
    requires Enabled(w, st) && IsTableStep(st) && w' == Next(w, st) && ForwardedAt(w, s) && w.nextStream !in w.ops
    ensures ForwardedAt(w', s)
  {
    if s in w.ops {
      TableOuts(w, w', st, s);
      if w.ops[s].agent.Some? { TablePipes(w, w', st, w.ops[s].agent.value, s); }
      OtherForwarded(w, w', s);
    } else if st.OpenOperator? {
      NewOperatorSays(st.sid, st.target);
    }
  }

  /* ---------- all steps, all runs ---------- */

  /** What a step needs to know beyond what every step does. */
  ghost predicate ForwardReady(w: World, w': World, st: Step, s: StreamId) {
    && Ready(w, st) && SilentBefore(w, s)
    && (s in w'.ops && w'.ops[s].agent.Some? ==> HasAgent(w', w'.ops[s].agent.value))
  }

  lemma OwnStepForwarded(w: World, w': World, side: OperatorSide, s: StreamId)
    requires ForwardReady(w, w', ByOperator(s, side), s) && OperatorSideEnabled(w, s, side)
    requires w' == OperatorSideNext(w, s, side) && ForwardedAt(w, s)
    ensures ForwardedAt(w', s)
  {
    if IsSend(side) {
      PushForwarded(w, w', s, side, w.ops[s].agent.value);
    } else {
      OwnForwarded(w, w', s, side);
    }
  }

  lemma OthersStepForwarded(w: World, w': World, st: Step, s: StreamId)
    requires Ready(w, st) && Enabled(w, st) && w' == Next(w, st) && ForwardedAt(w, s)
    requires st.ByOperator? ==> st.stream != s
    ensures ForwardedAt(w', s)
  {
    match st {
      case ByAgent(b, side) => SideForwarded(w, w', b, side, s);
      case ByOperator(r, side) => OperatorForwarded(w, w', r, side, s);
      case _ => TableForwarded(w, w', st, s);
    }
  }

  lemma ForwardedStep(w: World, w': World, st: Step, s: StreamId)
    requires ForwardReady(w, w', st, s) && Enabled(w, st) && w' == Next(w, st) && ForwardedAt(w, s)
    ensures ForwardedAt(w', s)
  {
    if st.ByOperator? && st.stream == s {
      OwnStepForwarded(w, w', st.opSide, s);
    } else {
      OthersStepForwarded(w, w', st, s);
    }
  }

  lemma LinkExists(w: World, s: StreamId)
    requires Inv(w) && s in w.ops && w.ops[s].agent.Some?
    ensures HasAgent(w, w.ops[s].agent.value)
  {
    assert OpInv(w, s);
  }

  lemma InvSilent(w: World, s: StreamId)
    requires Inv(w)
    ensures SilentBefore(w, s)
  {
    if s in w.ops && !w.ops[s].started && w.ops[s].agent.Some? {
      LinkExists(w, s);
      NothingSentYet(w, s, w.ops[s].agent.value);
    }
  }

  lemma LinkAt(run: seq<World>, steps: seq<Step>, i: nat, s: StreamId)
    requires IsRun(run, steps) && i < |run|
    ensures s in run[i].ops && run[i].ops[s].agent.Some? ==> HasAgent(run[i], run[i].ops[s].agent.value)
  {
    RunKeeps(run, steps, i);
    if s in run[i].ops && run[i].ops[s].agent.Some? { LinkExists(run[i], s); }
  }

  lemma ReadyAt(run: seq<World>, steps: seq<Step>, i: nat, s: StreamId)
    requires IsRun(run, steps) && i < |steps|
    ensures ForwardReady(run[i], run[i + 1], steps[i], s)
  {
    RunKeeps(run, steps, i);
    assert Follows(run, steps, i);
    InvReady(run[i], steps[i]);
    InvSilent(run[i], s);
    LinkAt(run, steps, i + 1, s);
  }

  lemma {:induction false} RunForwarded(run: seq<World>, steps: seq<Step>, j: nat, s: StreamId)
    requires IsRun(run, steps) && j < |run|
    ensures ForwardedAt(run[j], s)
  {
    if j > 0 {
      RunForwarded(run, steps, j - 1, s);
      ReadyAt(run, steps, j - 1, s);
      assert Follows(run, steps, j - 1);
      ForwardedStep(run[j - 1], run[j], steps[j - 1], s);
    }
  }

  lemma ReachableForwarded(w: World, s: StreamId)
    requires Reachable(w) && s in w.ops
    ensures ForwardedAt(w, s)
  {
    var run, steps :| IsRun(run, steps) && w in run;
    var j :| 0 <= j < |run| && run[j] == w;
    RunForwarded(run, steps, j, s);
  }

  lemma ForwardedMeans(op: Operator, s: StreamId, sent: seq<WireMessage>, open: bool)
    requires Forwarded(op, s, sent, open) && op.started && (op.pc.Relaying? ==> op.fwd.None?)
    ensures var all := [OpenStream(s, op.target)] + Relabelled(op.taken, s);
      && (sent + Opt(op.fwd) == all || (op.fwd.None? && sent == all + [StreamClose(s)]))
      && (op.fwd.Some? && !op.pc.Forwarding? ==> !open)
      && (op.pc.Relaying? ==> sent == all)
  {
    assert sent + [] == sent;
  }

  lemma RelayingHoldsNothing(w: World, s: StreamId)
    requires Reachable(w) && s in w.ops
    ensures w.ops[s].pc.Relaying? ==> w.ops[s].fwd.None? && w.ops[s].started
  {
    ReachableInv(w);
    assert OpInv(w, s);
  }

  /** In every reachable state all the relay ever sent an agent about a stream is: its opening, then in order,
      under the stream's id, every frame taken off the operator's websocket, and then, only after the
      handler's loop, its own close. Missing at the end is at most the frame in hand. */
  lemma FramesReachAgent(w: World, s: StreamId, a: AgentId)
    requires Reachable(w) && s in w.ops && w.ops[s].agent == Some(a) && w.ops[s].started
    ensures HasAgent(w, a)
    ensures var op, sent := w.ops[s], OnStream(w.toAgent[a].Sent(), s);
      var all := [OpenStream(s, op.target)] + Relabelled(op.taken, s);
      && (sent + Opt(op.fwd) == all || (op.fwd.None? && sent == all + [StreamClose(s)]))
      && (op.fwd.Some? && !op.pc.Forwarding? ==> !w.toAgent[a].chan.open)
      && (op.pc.Relaying? ==> sent == all)
  {
    ReachableForwarded(w, s);
    RelayingHoldsNothing(w, s);
    ForwardedMeans(w.ops[s], s, OnStream(w.toAgent[a].Sent(), s), w.toAgent[a].chan.open);
  }

  /** What the bridge made is all it read, in chunks of at most its buffer, and a close exactly once the socket
      has ended; and it goes on only as long as no close or error has reached it. */
  lemma BridgeKeepsItsWord(w: World, s: StreamId)
    requires Reachable(w) && s in w.ops
    ensures BridgeSays(w.ops[s])
    ensures s in w.toOp && (w.ops[s].bridge.alive ==> forall m :: m in w.toOp[s].delivered ==> !EndsBridge(m))
  {
    ReachableForwarded(w, s);
  }

  lemma {:induction false} RelabelledChunks(said: seq<WireMessage>, s: StreamId)
    requires AllChunks(said)
    ensures AllData(Relabelled(said, s)) && Payload(Relabelled(said, s), Some(s)) == Payload(said, None)
    decreases |said|
  {
    if |said| > 0 {
      var init, last := said[..|said| - 1], said[|said| - 1];
      RelabelledChunks(init, s);
      PayloadAppend(Relabelled(init, s), StreamData(s, last.bytes), Some(s));
      WordGrows(Relabelled(init, s), StreamData(s, last.bytes));
    }
  }

  lemma EndForwarded(op: Operator, s: StreamId, sent: seq<WireMessage>)
    requires BridgeSays(op) && op.bridge.eof && op.bridge.toSend.None? && op.up == []
    requires sent == [OpenStream(s, op.target)] + Relabelled(op.taken, s)
    ensures |sent| >= 2 && sent[0] == OpenStream(s, op.target) && sent[|sent| - 1] == StreamClose(s)
    ensures AllData(sent[1..|sent| - 1]) && Payload(sent[1..|sent| - 1], Some(s)) == op.bridge.read
  {
    assert Said(op) == op.taken;
    TakenEnds(op.taken, s, op.target, op.bridge.read, sent);
  }

  lemma InTheMiddle(first: WireMessage, middle: seq<WireMessage>, last: WireMessage, all: seq<WireMessage>)
    requires all == [first] + (middle + [last])
    ensures |all| >= 2 && all[0] == first && all[|all| - 1] == last && all[1..|all| - 1] == middle
  {
  }

  lemma TakenEnds(taken: seq<WireMessage>, s: StreamId, target: string, read: Bytes, sent: seq<WireMessage>)
    requires |taken| > 0 && taken[|taken| - 1] == StreamClose(BRIDGE_STREAM) && AllChunks(taken[..|taken| - 1])
    requires Payload(taken, None) == read && sent == [OpenStream(s, target)] + Relabelled(taken, s)
    ensures |sent| >= 2 && sent[0] == OpenStream(s, target) && sent[|sent| - 1] == StreamClose(s)
    ensures AllData(sent[1..|sent| - 1]) && Payload(sent[1..|sent| - 1], Some(s)) == read
  {
    var chunks := taken[..|taken| - 1];
    assert taken == chunks + [StreamClose(BRIDGE_STREAM)];
    RelabelledChunks(chunks, s);
    RelabelledAppend(chunks, StreamClose(BRIDGE_STREAM), s);
    PayloadAppend(chunks, StreamClose(BRIDGE_STREAM), None);
    InTheMiddle(OpenStream(s, target), Relabelled(chunks, s), StreamClose(s), sent);
  }

  /** Once the operator's socket has ended and its bridge's messages have all been forwarded, the agent's
      channel has accepted about the stream exactly its opening, all that was read from the socket, in data
      messages, and a close. */
  lemma EndReachesAgent(w: World, s: StreamId, a: AgentId)
    requires Reachable(w) && s in w.ops && w.ops[s].agent == Some(a)
    requires w.ops[s].bridge.eof && w.ops[s].bridge.toSend.None? && w.ops[s].up == [] && w.ops[s].pc.Relaying?
    ensures HasAgent(w, a)
    ensures var sent := OnStream(w.toAgent[a].Sent(), s);
      && |sent| >= 2 && sent[0] == OpenStream(s, w.ops[s].target) && sent[|sent| - 1] == StreamClose(s)
      && AllData(sent[1..|sent| - 1]) && Payload(sent[1..|sent| - 1], Some(s)) == w.ops[s].bridge.read
  {
    RelayingHoldsNothing(w, s);
    FramesReachAgent(w, s, a);
    BridgeKeepsItsWord(w, s);
    EndForwarded(w.ops[s], s, OnStream(w.toAgent[a].Sent(), s));
  }
}
