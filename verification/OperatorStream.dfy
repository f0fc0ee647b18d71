/** One operator stream: the bridge on the operator's machine, its websocket, and the relay-side
    handler's program counter. The handler's steps that touch shared state are in module RelaySystem. */
module OperatorStream {
  import opened Wire
  import opened Pipes

  type AgentId = nat

  const READ_BUFFER: nat := 16 * 1024

  /** The id the bridge puts on its own messages; the relay replaces it. */
  const BRIDGE_STREAM: StreamId := 1

  /** `toSend` is what the upstream half holds, `writing` what the downstream half still has to write.
      `read` and `written` are all bytes ever read from and written to the operator's local socket. */
  datatype Bridge = Bridge(alive: bool, eof: bool, toSend: Option<WireMessage>, writing: Bytes, read: Bytes,
                           written: Bytes)

  datatype HandlerPc =
    | Checking | Inserting | Opening
    | Relaying | Forwarding(last: bool)
    | Aborting | Notifying | Removing | Gone

  /** `agent` is the sender cloned by the first lock section, and `checkedAt` when that section ran.
      `inserted` and `started` record that the stream entered its session's map, and that its
      `OpenStream` was accepted by the agent's channel; `late` that the agent's handler was already
      over when the stream entered the map. `taken` is every frame the handler has taken off the operator's
      websocket `up`. */
  datatype Operator = Operator(session: SessionId, target: string, pc: HandlerPc, agent: Option<AgentId>,
                               checkedAt: nat, inserted: bool, late: bool, started: bool, fwd: Option<WireMessage>,
                               up: seq<WireMessage>, taken: seq<WireMessage>, bridge: Bridge)

  function NewOperator(session: SessionId, target: string): Operator {
    Operator(session, target, Checking, None, 0, false, false, false, None, [], [],
             Bridge(true, false, None, [], [], []))
  }

  datatype OperatorStep =
    | BridgeRead(chunk: Bytes)
    | BridgeEof
    | BridgeSend
    | BridgeReceive
    | BridgeWrite(count: nat)
    | BridgeStop
    | OutMove(move: Move)
    | ReceiveOperatorFrame
    | LeaveOperatorLoop
    | AbortOutbound(late: bool)

  predicate OperatorEnabled(op: Operator, out: Pipe, st: OperatorStep) {
    var b := op.bridge;
    match st
    case BridgeRead(chunk) => b.alive && !b.eof && b.toSend.None? && 0 < |chunk| <= READ_BUFFER
    case BridgeEof => b.alive && !b.eof && b.toSend.None?
    case BridgeSend => b.alive && b.toSend.Some?
    case BridgeReceive => b.alive && b.writing == [] && out.CanReceive()
    case BridgeWrite(k) => b.alive && 0 < k <= |b.writing|
    case BridgeStop => true
    case OutMove(v) => !v.StartMove? && CanMove(out, v)
    case ReceiveOperatorFrame => op.pc.Relaying? && |op.up| > 0
    case LeaveOperatorLoop => op.pc.Relaying?
    case AbortOutbound(_) => op.pc.Aborting?
  }

  /** The downstream half's `match`: data is written, an end or an error ends the bridge. */
  function OnRelayFrame(b: Bridge, m: WireMessage): Bridge {
    match m
    case StreamData(_, bytes) => b.(writing := bytes)
    case StreamClose(_) => b.(alive := false)
    case StreamError(_, _) => b.(alive := false)
    case Error(_) => b.(alive := false)
    case _ => b
  }

  /** The handler's `match`: the operator's id is replaced by the stream's own. */
  function OnOperatorFrame(op: Operator, s: StreamId, m: WireMessage): Operator {
    match m
    case StreamData(_, bytes) => op.(fwd := Some(StreamData(s, bytes)), pc := Forwarding(false))
    case StreamClose(_) => op.(fwd := Some(StreamClose(s)), pc := Forwarding(false))
    case StreamError(_, text) => op.(fwd := Some(StreamError(s, text)), pc := Forwarding(true))
    case _ => op
  }

  /** An operator's frame as the agent is to see it; what is about no stream is ignored. */
  function Relabel(m: WireMessage, s: StreamId): seq<WireMessage> {
    match m
    case StreamData(_, bytes) => [StreamData(s, bytes)]
    case StreamClose(_) => [StreamClose(s)]
    case StreamError(_, text) => [StreamError(s, text)]
    case _ => []
  }

  function Relabelled(frames: seq<WireMessage>, s: StreamId): seq<WireMessage> {
    if |frames| == 0 then [] else Relabelled(frames[..|frames| - 1], s) + Relabel(frames[|frames| - 1], s)
  }

  lemma RelabelledAppend(frames: seq<WireMessage>, m: WireMessage, s: StreamId)
    ensures Relabelled(frames + [m], s) == Relabelled(frames, s) + Relabel(m, s)
  {
    assert (frames + [m])[..|frames|] == frames;
  }

  lemma RelabelledNext(frames: seq<WireMessage>, i: nat, s: StreamId)
    requires i < |frames|
    ensures Relabelled(frames[..i + 1], s) == Relabelled(frames[..i], s) + Relabel(frames[i], s)
  {
    assert frames[..i + 1] == frames[..i] + [frames[i]];
    RelabelledAppend(frames[..i], frames[i], s);
  }

  /** Relabelling changes the stream's id and nothing else. */
  lemma {:induction false} RelabelledKeeps(frames: seq<WireMessage>, s: StreamId)
    requires forall m :: m in frames ==> m.StreamData? || m.StreamClose? || m.StreamError?
    ensures |Relabelled(frames, s)| == |frames|
    ensures forall i :: 0 <= i < |frames| ==>
              var m, r := frames[i], Relabelled(frames, s)[i];
              && About(r, s) && (r.StreamData? <==> m.StreamData?) && (r.StreamError? <==> m.StreamError?)
              && (m.StreamData? ==> r.bytes == m.bytes) && (m.StreamError? ==> r.text == m.text)
              && (m.StreamClose? ==> r.StreamClose?)
    decreases |frames|
  {
    if |frames| > 0 {
      assert frames[|frames| - 1] in frames;
      RelabelledKeeps(frames[..|frames| - 1], s);
    }
  }

  function OperatorNext(op: Operator, s: StreamId, out: Pipe, st: OperatorStep): Operator
    requires OperatorEnabled(op, out, st)
  {
    var b := op.bridge;
    match st
    case BridgeRead(chunk) => op.(bridge := b.(read := b.read + chunk,
                                               toSend := Some(StreamData(BRIDGE_STREAM, chunk))))
    case BridgeEof => op.(bridge := b.(eof := true, toSend := Some(StreamClose(BRIDGE_STREAM))))
    case BridgeSend => op.(up := op.up + [b.toSend.value], bridge := b.(toSend := None))
    case BridgeReceive => op.(bridge := OnRelayFrame(b, out.wire[0]))
    case BridgeWrite(k) => op.(bridge := b.(written := b.written + b.writing[..k], writing := b.writing[k..]))
    case BridgeStop => op.(bridge := b.(alive := false))
    case OutMove(_) => op
    case ReceiveOperatorFrame => OnOperatorFrame(op, s, op.up[0]).(up := op.up[1..], taken := op.taken + [op.up[0]])
    case LeaveOperatorLoop => op.(pc := Aborting)
    case AbortOutbound(_) => op.(pc := Notifying)
  }

  /** The relay's pipe to the operator after the step. An abort is a request: the task may still be
      running afterwards (`late`) and then stops by a step of its own. */
  function OutAfter(out: Pipe, st: OperatorStep): Pipe
    requires st.BridgeReceive? ==> out.CanReceive()
    requires st.OutMove? ==> CanMove(out, st.move)
  {
    match st
    case BridgeReceive => out.Receive()
    case OutMove(v) => Moved(out, v)
    case AbortOutbound(late) => if late then out else out.Stop()
    case _ => out
  }

  /** Bytes read by the bridge that the relay's handler has not yet passed to the agent's channel. */
  function UpPath(op: Operator): Bytes {
    ChunkOf(op.fwd, None) + Payload(op.up, None) + ChunkOf(op.bridge.toSend, None)
  }

  ghost predicate HandlerPcOk(op: Operator, s: StreamId) {
    && (op.pc.Checking? <==> op.agent.None? && !op.pc.Gone?)
    && (op.pc.Checking? || op.pc.Inserting? ==> !op.inserted)
    && (op.pc.Opening? ==> op.inserted && !op.started)
    && (op.started ==> op.inserted)
    && (op.inserted ==> op.agent.Some?)
    && (!op.started ==> op.fwd.None?)
    && (op.pc.Relaying? || op.pc.Forwarding? || op.pc.Aborting? || op.pc.Notifying? || op.pc.Removing? ==> op.started)
    && (op.pc.Relaying? ==> op.fwd.None?)
    && (op.pc.Forwarding? ==> op.fwd.Some? && About(op.fwd.value, s) && !op.fwd.value.OpenStream?)
  }

  /** Every payload byte the bridge received is written or being written. */
  ghost predicate OperatorOk(op: Operator, s: StreamId, got: seq<WireMessage>) {
    && HandlerPcOk(op, s)
    && Payload(got, None) == op.bridge.written + op.bridge.writing
  }

  /** Every byte read from the local socket was passed to the agent's channel (`sent`) or is on its way. */
  ghost predicate UpHopOk(op: Operator, sent: Bytes) {
    op.bridge.read == sent + UpPath(op)
  }

  lemma PayloadHead(log: seq<WireMessage>, who: Option<StreamId>)
    requires |log| > 0
    ensures Payload(log, who) == Chunk(log[0], who) + Payload(log[1..], who)
  {
    assert log == [log[0]] + log[1..];
    PayloadConcat([log[0]], log[1..], who);
    assert [log[0]][..0] == [];
  }

  lemma BridgeMovesUp(op: Operator, s: StreamId, out: Pipe, st: OperatorStep, sent: Bytes)
    requires OperatorEnabled(op, out, st) && (st.BridgeRead? || st.BridgeEof? || st.BridgeSend?)
    requires UpHopOk(op, sent)
    ensures UpHopOk(OperatorNext(op, s, out, st), sent)
  {
    var op' := OperatorNext(op, s, out, st);
    var f, p, t := ChunkOf(op.fwd, None), Payload(op.up, None), ChunkOf(op.bridge.toSend, None);
    match st {
      case BridgeRead(chunk) =>
        assert op.bridge.read + chunk == sent + (f + p + chunk);
      case BridgeSend =>
        PayloadAppend(op.up, op.bridge.toSend.value, None);
        assert f + p + t == f + (p + t) + [];
      case _ =>
    }
  }

  lemma HandlerTakesFrame(op: Operator, s: StreamId, out: Pipe, sent: Bytes)
    requires OperatorEnabled(op, out, ReceiveOperatorFrame) && HandlerPcOk(op, s)
    requires UpHopOk(op, sent)
    ensures UpHopOk(OperatorNext(op, s, out, ReceiveOperatorFrame), sent)
  {
    PayloadHead(op.up, None);
    var c, r, t := Chunk(op.up[0], None), Payload(op.up[1..], None), ChunkOf(op.bridge.toSend, None);
    assert [] + (c + r) + t == c + r + t;
  }

  lemma BridgeMovesDown(op: Operator, s: StreamId, out: Pipe, st: OperatorStep)
    requires OperatorEnabled(op, out, st) && OperatorOk(op, s, out.delivered) && (st.BridgeReceive? || st.BridgeWrite?)
    ensures OperatorOk(OperatorNext(op, s, out, st), s, OutAfter(out, st).delivered)
  {
    if st.BridgeReceive? {
      PayloadAppend(out.delivered, out.wire[0], None);
    } else {
      var b := op.bridge;
      assert b.written + b.writing[..st.count] + b.writing[st.count..] == b.written + b.writing;
    }
  }

  /** Every step of the bridge and of the handler's private state keeps both hops. */
  lemma OperatorStepKeeps(op: Operator, s: StreamId, out: Pipe, st: OperatorStep, sent: Bytes)
    requires OperatorEnabled(op, out, st) && OperatorOk(op, s, out.delivered) && UpHopOk(op, sent)
    ensures OperatorOk(OperatorNext(op, s, out, st), s, OutAfter(out, st).delivered)
    ensures UpHopOk(OperatorNext(op, s, out, st), sent)
  {
    match st {
      case BridgeRead(_) => BridgeMovesUp(op, s, out, st, sent);
      case BridgeEof => BridgeMovesUp(op, s, out, st, sent);
      case BridgeSend => BridgeMovesUp(op, s, out, st, sent);
      case BridgeReceive => BridgeMovesDown(op, s, out, st);
      case BridgeWrite(_) => BridgeMovesDown(op, s, out, st);
      case ReceiveOperatorFrame => HandlerTakesFrame(op, s, out, sent);
      case OutMove(v) => MoveKeepsSent(out, v);
      case _ =>
    }
  }
}
