/** The agent process: the `run_join` loop, its send task, and one reader and one writer task
    per local stream. Every await point is a separate step. */
module AgentProcess {
  import opened Wire
  import opened Pipes

  const READ_BUFFER: nat := 16 * 1024

  datatype ReaderPc = Reading | Sending | Failing(text: string) | Closing | Finished

  /** How reading from a target ended, if it has. */
  datatype ReadEnd = Reads | AtEof | Broken(text: string)

  /** A dialled local target. `read` and `written` are all bytes ever read from and written to it;
      `hand` is what the writer holds; `unsent` is the chunk the reader holds. `end` is only recorded. */
  datatype Local = Local(endpoint: TunnelEndpoint, toTcp: Channel<Bytes>, writing: bool, hand: Bytes,
                         written: Bytes, read: Bytes, reader: ReaderPc, unsent: Bytes, end: ReadEnd)

  datatype LoopPc =
    | Looping
    | Dialing(stream: StreamId, target: string, endpoint: TunnelEndpoint)
    | Pushing(stream: StreamId, bytes: Bytes)
    | Replying(reply: WireMessage)
    | Exited

  /** `streams` is the shared stream map: its senders feed the `toTcp` channel of the local of the
      same id. `discarded` records data the loop dropped. */
  datatype Agent = Agent(code: SessionCode, device: Option<string>, exposes: seq<TunnelSpec>,
                         up: Pipe, pc: LoopPc, streams: set<StreamId>, locals: map<StreamId, Local>,
                         discarded: seq<WireMessage>)

  function Offers(specs: seq<TunnelSpec>): seq<TunnelOffer> {
    seq(|specs|, i requires 0 <= i < |specs| =>
      TunnelOffer(specs[i].name, specs[i].target.host, specs[i].target.port))
  }

  /** Collecting into a `HashMap`: a later spec of the same name wins. */
  function ExposeMap(specs: seq<TunnelSpec>): map<string, TunnelEndpoint> {
    if |specs| == 0 then map[]
    else
      var last := specs[|specs| - 1];
      ExposeMap(specs[..|specs| - 1])[last.name := last.target]
  }

  function Hello(ag: Agent): WireMessage {
    AgentHello(PROTOCOL_VERSION, ag.code, ag.device, Offers(ag.exposes))
  }

  function NewAgent(code: SessionCode, device: Option<string>, exposes: seq<TunnelSpec>): Agent {
    var ag := Agent(code, device, exposes, NewPipe(), Looping, {}, map[], []);
    ag.(up := NewPipe().Send(Hello(ag)).Start())
  }

  function NewLocal(endpoint: TunnelEndpoint): Local {
    Local(endpoint, Channel([], true), true, [], [], [], Reading, [], Reads)
  }

  datatype AgentStep =
    | ReceiveFrame
    | ReplySent
    | ReplyLost
    | DialOk
    | DialFailed(text: string)
    | PushDone
    | PushLost
    | LeaveLoop
    | UpMove(move: Move)
    | WriterTake(stream: StreamId)
    | WriterWrite(stream: StreamId, count: nat)
    | WriterStop(stream: StreamId)
    | ReadChunk(stream: StreamId, chunk: Bytes)
    | ReadEof(stream: StreamId)
    | ReadFailed(stream: StreamId, text: string)
    | ReaderSend(stream: StreamId)
    | ReaderSendLost(stream: StreamId)

  /** What the reader task sends next. */
  function ReaderMessage(s: StreamId, l: Local): WireMessage
    requires l.reader.Sending? || l.reader.Failing? || l.reader.Closing?
  {
    match l.reader
    case Sending => StreamData(s, l.unsent)
    case Failing(text) => StreamError(s, text)
    case Closing => StreamClose(s)
  }

  predicate ReaderHasMessage(l: Local) {
    l.reader.Sending? || l.reader.Failing? || l.reader.Closing?
  }

  predicate AgentEnabled(ag: Agent, down: Pipe, st: AgentStep) {
    match st
    case ReceiveFrame => ag.pc.Looping? && down.CanReceive()
    case ReplySent => ag.pc.Replying? && ag.up.chan.CanSend()
    case ReplyLost => ag.pc.Replying? && !ag.up.chan.open
    case DialOk => ag.pc.Dialing?
    case DialFailed(_) => ag.pc.Dialing?
    case PushDone => ag.pc.Pushing? && ag.pc.stream in ag.locals && ag.locals[ag.pc.stream].toTcp.CanSend()
    case PushLost => ag.pc.Pushing? && ag.pc.stream in ag.locals && !ag.locals[ag.pc.stream].toTcp.open
    case LeaveLoop => !ag.pc.Exited?
    case UpMove(v) => !v.StartMove? && CanMove(ag.up, v)
    case WriterTake(s) => s in ag.locals && ag.locals[s].writing && ag.locals[s].hand == []
        && |ag.locals[s].toTcp.queue| > 0
    case WriterWrite(s, k) => s in ag.locals && ag.locals[s].writing && 0 < k <= |ag.locals[s].hand|
    case WriterStop(s) => s in ag.locals
    case ReadChunk(s, b) => s in ag.locals && ag.locals[s].reader.Reading? && 0 < |b| <= READ_BUFFER
    case ReadEof(s) => s in ag.locals && ag.locals[s].reader.Reading?
    case ReadFailed(s, _) => s in ag.locals && ag.locals[s].reader.Reading?
    case ReaderSend(s) => s in ag.locals && ReaderHasMessage(ag.locals[s]) && ag.up.chan.CanSend()
    case ReaderSendLost(s) => s in ag.locals && ReaderHasMessage(ag.locals[s]) && !ag.up.chan.open
  }

  /** Leaving the loop clears the stream map; a chunk still being pushed is gone. */
  function Leave(ag: Agent): Agent {
    var gone := ag.(pc := Exited, streams := {});
    if ag.pc.Pushing? then gone.(discarded := ag.discarded + [StreamData(ag.pc.stream, ag.pc.bytes)]) else gone
  }

  function NotExposed(target: string): string {
    "target `" + target + "` is not exposed by this agent"
  }

  /** One iteration of the loop's `match`. */
  function OnFrame(ag: Agent, m: WireMessage): Agent {
    match m
    case OpenStream(s, target) =>
      var table := ExposeMap(ag.exposes);
      if target in table then ag.(pc := Dialing(s, target, table[target]))
      else ag.(pc := Replying(StreamError(s, NotExposed(target))))
    case StreamData(s, bytes) =>
      if s in ag.streams then ag.(pc := Pushing(s, bytes))
      else ag.(discarded := ag.discarded + [m])
    case StreamClose(s) => ag.(streams := ag.streams - {s})
    case StreamError(s, _) => ag.(streams := ag.streams - {s})
    case Error(_) => Leave(ag)
    case AgentReady(_) => ag
    case AgentHello(_, _, _, _) => ag
  }

  function WithLocal(ag: Agent, s: StreamId, l: Local): Agent {
    ag.(locals := ag.locals[s := l])
  }

  /** The reader's program counter after its send was accepted, or refused by a closed channel. */
  function AfterReaderSend(l: Local, accepted: bool): Local
    requires ReaderHasMessage(l)
  {
    match l.reader
    case Sending => if accepted then l.(reader := Reading, unsent := []) else l.(reader := Closing)
    case Failing(_) => l.(reader := Closing)
    case Closing => l.(reader := Finished)
  }

  function AgentNext(ag: Agent, down: Pipe, st: AgentStep): Agent
    requires AgentEnabled(ag, down, st)
  {
    match st
    case ReceiveFrame => OnFrame(ag, down.wire[0])
    case ReplySent => ag.(pc := Looping, up := ag.up.Send(ag.pc.reply))
    case ReplyLost => Leave(ag)
    case DialOk =>
      ag.(pc := Looping, streams := ag.streams + {ag.pc.stream},
          locals := ag.locals[ag.pc.stream := NewLocal(ag.pc.endpoint)])
    case DialFailed(text) => ag.(pc := Replying(StreamError(ag.pc.stream, text)))
    case PushDone =>
      var l := ag.locals[ag.pc.stream];
      WithLocal(ag, ag.pc.stream, l.(toTcp := l.toTcp.Send(ag.pc.bytes))).(pc := Looping)
    case PushLost => Leave(ag)
    case LeaveLoop => Leave(ag)
    case UpMove(v) => ag.(up := Moved(ag.up, v))
    case WriterTake(s) =>
      var l := ag.locals[s];
      WithLocal(ag, s, l.(hand := l.toTcp.queue[0], toTcp := l.toTcp.(queue := l.toTcp.queue[1..])))
    case WriterWrite(s, k) =>
      var l := ag.locals[s];
      WithLocal(ag, s, l.(written := l.written + l.hand[..k], hand := l.hand[k..]))
    case WriterStop(s) =>
      var l := ag.locals[s];
      WithLocal(ag, s, l.(writing := false, toTcp := l.toTcp.(open := false)))
    case ReadChunk(s, b) =>
      var l := ag.locals[s];
      WithLocal(ag, s, l.(read := l.read + b, unsent := b, reader := Sending))
    case ReadEof(s) => WithLocal(ag, s, ag.locals[s].(reader := Closing, end := AtEof))
    case ReadFailed(s, text) => WithLocal(ag, s, ag.locals[s].(reader := Failing(text), end := Broken(text)))
    case ReaderSend(s) =>
      var l := ag.locals[s];
      WithLocal(ag, s, AfterReaderSend(l, true)).(up := ag.up.Send(ReaderMessage(s, l)))
    case ReaderSendLost(s) => WithLocal(ag, s, AfterReaderSend(ag.locals[s], false))
  }

  /* ---------- what every agent step keeps ---------- */

  function Flat(chunks: seq<Bytes>): Bytes {
    if |chunks| == 0 then [] else chunks[0] + Flat(chunks[1..])
  }

  lemma {:induction false} FlatAppend(chunks: seq<Bytes>, b: Bytes)
    ensures Flat(chunks + [b]) == Flat(chunks) + b
  {
    if |chunks| == 0 {
      assert (chunks + [b])[1..] == [];
    } else {
      assert (chunks + [b])[1..] == chunks[1..] + [b];
      FlatAppend(chunks[1..], b);
    }
  }

  function Sink(l: Local): Bytes {
    l.written + l.hand + Flat(l.toTcp.queue)
  }

  /** Bytes for `s` that the loop has handed to the local writer. */
  function Sunk(ag: Agent, s: StreamId): Bytes {
    if s in ag.locals then Sink(ag.locals[s]) else []
  }

  function PushHand(ag: Agent, s: StreamId): Bytes {
    if ag.pc.Pushing? && ag.pc.stream == s then ag.pc.bytes else []
  }

  function ReadFrom(ag: Agent, s: StreamId): Bytes {
    if s in ag.locals then ag.locals[s].read else []
  }

  function Unsent(ag: Agent, s: StreamId): Bytes {
    if s in ag.locals then ag.locals[s].unsent else []
  }

  /** Every byte of `s` received from the relay is written, on its way to the target, discarded,
      or in the loop's hand, in that order. */
  ghost predicate DownBytesOk(ag: Agent, got: seq<WireMessage>, s: StreamId) {
    && Payload(got, Some(s)) == Sunk(ag, s) + Payload(ag.discarded, Some(s)) + PushHand(ag, s)
    && (s in ag.streams ==> Payload(ag.discarded, Some(s)) == [])
  }

  /** Every byte read from the target was sent, or is the reader's current chunk. */
  ghost predicate UpBytesOk(ag: Agent, s: StreamId) {
    && ReadFrom(ag, s) == Payload(ag.up.Sent(), Some(s)) + Unsent(ag, s)
    && (s in ag.locals && ag.locals[s].reader.Reading? ==> ag.locals[s].unsent == [])
  }

  ghost predicate UpPhaseOk(ag: Agent, s: StreamId) {
    var p := UpPhaseOf(ag.up.Sent(), s);
    if s in ag.locals then
      match ag.locals[s].reader
      case Closing => p == Flowing || p == Failed
      case Finished => p != Illegal
      case _ => p == Flowing
    else
      p == Flowing || p == Failed
  }

  ghost predicate EndpointFor(ag: Agent, got: seq<WireMessage>, s: StreamId, target: string, endpoint: TunnelEndpoint) {
    && OpenStream(s, target) in got
    && target in ExposeMap(ag.exposes)
    && endpoint == ExposeMap(ag.exposes)[target]
  }

  ghost predicate LocalOk(ag: Agent, got: seq<WireMessage>, s: StreamId)
    requires s in ag.locals
  {
    && s in Opens(got)
    && |ag.locals[s].toTcp.queue| <= CAPACITY
    && exists target :: EndpointFor(ag, got, s, target, ag.locals[s].endpoint)
  }

  ghost predicate PcOk(ag: Agent, got: seq<WireMessage>) {
    match ag.pc
    case Dialing(s, target, endpoint) =>
      && s in Opens(got) && s !in ag.locals && UpPhaseOf(ag.up.Sent(), s) == Flowing
      && Payload(got, Some(s)) == []
      && EndpointFor(ag, got, s, target, endpoint)
    case Replying(m) =>
      m.StreamError? && m.stream in Opens(got) && m.stream !in ag.locals
      && UpPhaseOf(ag.up.Sent(), m.stream) == Flowing
    case Pushing(s, _) => s in ag.streams
    case Looping => true
    case Exited => ag.streams == {}
  }

  /** Messages the agent has sent: its own hello, and messages about streams it was asked to open. */
  ghost predicate SentOk(ag: Agent, got: seq<WireMessage>) {
    forall m :: m in ag.up.Sent() ==>
      match StreamOf(m)
      case Some(s) => s in Opens(got)
      case None => m == Hello(ag)
  }

  ghost predicate AgentOk(ag: Agent, got: seq<WireMessage>) {
    && ag.up.Bounded()
    && ag.streams <= ag.locals.Keys
    && PcOk(ag, got)
    && SentOk(ag, got)
    && (forall s :: s in ag.locals ==> LocalOk(ag, got, s))
    && (forall s :: DownBytesOk(ag, got, s))
    && (forall s :: UpBytesOk(ag, s))
    && (forall s :: UpPhaseOk(ag, s))
  }

  lemma SentByNobody(ag: Agent, got: seq<WireMessage>, s: StreamId)
    requires SentOk(ag, got) && s !in Opens(got)
    ensures forall m :: m in ag.up.Sent() ==> !About(m, s)
    ensures UpPhaseOf(ag.up.Sent(), s) == Flowing
  {
    UpPhaseOfOthers(ag.up.Sent(), s);
  }

  lemma {:induction false} UpPhaseOfOthers(log: seq<WireMessage>, s: StreamId)
    requires forall m :: m in log ==> !About(m, s)
    ensures UpPhaseOf(log, s) == Flowing
  {
    if |log| > 0 {
      assert log[|log| - 1] in log;
      UpPhaseOfOthers(log[..|log| - 1], s);
    }
  }

  lemma {:induction false} OpensMember(log: seq<WireMessage>, s: StreamId)
    ensures s in Opens(log) <==> exists target :: OpenStream(s, target) in log
  {
    if |log| > 0 {
      var init, last := log[..|log| - 1], log[|log| - 1];
      assert log == init + [last];
      OpensMember(init, s);
    }
  }

  lemma NewAgentOk(code: SessionCode, device: Option<string>, exposes: seq<TunnelSpec>)
    ensures AgentOk(NewAgent(code, device, exposes), [])
  {
    var ag := NewAgent(code, device, exposes);
    assert ag.up.Sent() == [Hello(ag)];
    forall s
      ensures DownBytesOk(ag, [], s) && UpBytesOk(ag, s) && UpPhaseOk(ag, s)
    {
      assert [Hello(ag)][..0] == [];
      NoPayload(ag.up.Sent(), s);
      UpPhaseOfOthers(ag.up.Sent(), s);
    }
  }

  /** What one received frame changes. */
  lemma OnFrameShape(ag: Agent, m: WireMessage)
    requires ag.pc.Looping?
    ensures var ag' := OnFrame(ag, m);
      && ag'.locals == ag.locals && ag'.up == ag.up && ag'.streams <= ag.streams
      && ag'.code == ag.code && ag'.device == ag.device && ag'.exposes == ag.exposes
      && ag'.discarded == (if m.StreamData? && m.stream !in ag.streams then ag.discarded + [m] else ag.discarded)
      && (ag'.pc.Pushing? <==> m.StreamData? && m.stream in ag.streams)
      && (ag'.pc.Pushing? ==> ag'.pc == Pushing(m.stream, m.bytes))
  {
  }

  lemma ReceiveDownBytes(ag: Agent, got: seq<WireMessage>, m: WireMessage, s: StreamId)
    requires DownBytesOk(ag, got, s) && ag.pc.Looping?
    ensures DownBytesOk(OnFrame(ag, m), got + [m], s)
  {
    PayloadAppend(got, m, Some(s));
    PayloadAppend(ag.discarded, m, Some(s));
    OnFrameShape(ag, m);
    FrameBytes(Sunk(ag, s), Payload(ag.discarded, Some(s)), Chunk(m, Some(s)));
    assert Sunk(OnFrame(ag, m), s) == Sunk(ag, s) && PushHand(ag, s) == [];
    if m.StreamData? && m.stream == s && s in ag.streams {
      assert PushHand(OnFrame(ag, m), s) == m.bytes;
    } else {
      assert PushHand(OnFrame(ag, m), s) == [];
    }
  }

  lemma FrameBytes(sunk: Bytes, lost: Bytes, chunk: Bytes)
    ensures sunk + lost + [] == sunk + lost
    ensures sunk + lost + chunk == sunk + (lost + chunk)
    ensures sunk + (lost + chunk) + [] == sunk + (lost + chunk)
  {
  }

  lemma ReceiveEndpoint(ag: Agent, got: seq<WireMessage>, m: WireMessage, s: StreamId)
    requires s in ag.locals && LocalOk(ag, got, s) && ag.pc.Looping?
    ensures LocalOk(OnFrame(ag, m), got + [m], s)
  {
    OpensAppend(got, m);
    OnFrameShape(ag, m);
    var target :| EndpointFor(ag, got, s, target, ag.locals[s].endpoint);
    assert EndpointFor(OnFrame(ag, m), got + [m], s, target, ag.locals[s].endpoint);
  }

  lemma ReceivePc(ag: Agent, got: seq<WireMessage>, m: WireMessage)
    requires AgentOk(ag, got) && ag.pc.Looping? && DownGrammar(got + [m])
    ensures PcOk(OnFrame(ag, m), got + [m])
  {
    DownGrammarAppend(got, m);
    OpensAppend(got, m);
    if m.OpenStream? {
      assert m.stream in ag.locals ==> LocalOk(ag, got, m.stream);
      SentByNobody(ag, got, m.stream);
      NoDataBeforeOpen(got, m.stream);
      PayloadAppend(got, m, Some(m.stream));
    }
  }

  /** Receiving one frame. */
  lemma ReceiveKeeps(ag: Agent, got: seq<WireMessage>, m: WireMessage)
    requires AgentOk(ag, got) && ag.pc.Looping? && DownGrammar(got + [m])
    ensures AgentOk(OnFrame(ag, m), got + [m])
  {
    var ag', got' := OnFrame(ag, m), got + [m];
    OpensAppend(got, m);
    OnFrameShape(ag, m);
    ReceivePc(ag, got, m);
    forall s ensures DownBytesOk(ag', got', s) { ReceiveDownBytes(ag, got, m, s); }
    forall s | s in ag'.locals ensures LocalOk(ag', got', s) { ReceiveEndpoint(ag, got, m, s); }
    forall s ensures UpBytesOk(ag', s) && UpPhaseOk(ag', s) {
      assert UpBytesOk(ag, s) && UpPhaseOk(ag, s);
    }
    assert SentOk(ag', got');
  }

  /** Sending one message up, when the grammar of its stream allows it. */
  lemma SendUp(ag: Agent, m: WireMessage, s: StreamId)
    requires ag.up.chan.CanSend()
    ensures ag.up.Send(m).Sent() == ag.up.Sent() + [m]
    ensures Payload(ag.up.Send(m).Sent(), Some(s)) == Payload(ag.up.Sent(), Some(s)) + Chunk(m, Some(s))
    ensures UpPhaseOf(ag.up.Send(m).Sent(), s) == UpNext(UpPhaseOf(ag.up.Sent(), s), m, s)
  {
    SendAppends(ag.up, m);
    PayloadAppend(ag.up.Sent(), m, Some(s));
    UpPhaseAppend(ag.up.Sent(), m, s);
  }

  /* ---------- one lemma per kind of step ---------- */

  lemma LocalsKeep(ag: Agent, ag': Agent, got: seq<WireMessage>)
    requires forall s :: s in ag.locals ==> LocalOk(ag, got, s)
    requires ag'.exposes == ag.exposes && ag'.locals.Keys == ag.locals.Keys
    requires forall s :: s in ag.locals ==>
              ag'.locals[s].endpoint == ag.locals[s].endpoint && |ag'.locals[s].toTcp.queue| <= CAPACITY
    ensures forall s :: s in ag'.locals ==> LocalOk(ag', got, s)
  {
    forall s | s in ag'.locals ensures LocalOk(ag', got, s) {
      assert LocalOk(ag, got, s);
      var target :| EndpointFor(ag, got, s, target, ag.locals[s].endpoint);
      assert EndpointFor(ag', got, s, target, ag'.locals[s].endpoint);
    }
  }

  /** Sending a message about `s` changes no other stream's bytes or grammar. */
  lemma SendUpOthers(ag: Agent, ag': Agent, m: WireMessage, s: StreamId)
    requires ag.up.chan.CanSend() && About(m, s) && ag'.up == ag.up.Send(m)
    requires forall r :: r != s ==>
              (r in ag'.locals <==> r in ag.locals) && (r in ag.locals ==> ag'.locals[r] == ag.locals[r])
    requires forall r :: UpBytesOk(ag, r) && UpPhaseOk(ag, r)
    requires UpBytesOk(ag', s) && UpPhaseOk(ag', s)
    ensures forall r :: UpBytesOk(ag', r) && UpPhaseOk(ag', r)
    ensures forall r :: r != s ==> UpPhaseOf(ag'.up.Sent(), r) == UpPhaseOf(ag.up.Sent(), r)
  {
    forall r | r != s
      ensures UpBytesOk(ag', r) && UpPhaseOk(ag', r) && UpPhaseOf(ag'.up.Sent(), r) == UpPhaseOf(ag.up.Sent(), r)
    {
      assert UpBytesOk(ag, r) && UpPhaseOk(ag, r);
      SendUpOther(ag, ag', m, r);
    }
  }

  lemma SendUpOther(ag: Agent, ag': Agent, m: WireMessage, r: StreamId)
    requires ag.up.chan.CanSend() && !About(m, r) && ag'.up == ag.up.Send(m)
    requires (r in ag'.locals <==> r in ag.locals) && (r in ag.locals ==> ag'.locals[r] == ag.locals[r])
    requires UpBytesOk(ag, r) && UpPhaseOk(ag, r)
    ensures UpBytesOk(ag', r) && UpPhaseOk(ag', r)
    ensures UpPhaseOf(ag'.up.Sent(), r) == UpPhaseOf(ag.up.Sent(), r)
  {
    SendUp(ag, m, r);
    assert Payload(ag.up.Sent(), Some(r)) + [] == Payload(ag.up.Sent(), Some(r));
  }

  lemma SameDownBytes(ag: Agent, ag': Agent, got: seq<WireMessage>)
    requires forall s :: DownBytesOk(ag, got, s)
    requires ag'.discarded == ag.discarded && ag'.streams == ag.streams
    requires forall s :: Sunk(ag', s) + PushHand(ag', s) == Sunk(ag, s) + PushHand(ag, s)
    requires forall s :: PushHand(ag', s) == PushHand(ag, s) || Payload(ag.discarded, Some(s)) == []
    ensures forall s :: DownBytesOk(ag', got, s)
  {
    forall s ensures DownBytesOk(ag', got, s) {
      assert DownBytesOk(ag, got, s);
      SameBytes(Sunk(ag, s), Sunk(ag', s), Payload(ag.discarded, Some(s)), PushHand(ag, s), PushHand(ag', s));
    }
  }

  lemma SameBytes(sunk: Bytes, sunk': Bytes, lost: Bytes, hand: Bytes, hand': Bytes)
    requires sunk' + hand' == sunk + hand && (hand' == hand || lost == [])
    ensures sunk' + lost + hand' == sunk + lost + hand
  {
    if lost == [] {
      assert sunk' + lost == sunk' && sunk + lost == sunk;
    } else {
      AppendCancel(sunk', sunk, hand);
    }
  }

  lemma AppendCancel(a: Bytes, b: Bytes, c: Bytes)
    requires a + c == b + c
    ensures a == b
  {
    assert |a| == |b|;
    assert (a + c)[..|a|] == a && (b + c)[..|a|] == b;
  }

  /** A step of one local's tasks that sends nothing up. */
  lemma LocalKeeps(ag: Agent, got: seq<WireMessage>, s: StreamId, l: Local)
    requires AgentOk(ag, got) && s in ag.locals
    requires l.endpoint == ag.locals[s].endpoint && |l.toTcp.queue| <= CAPACITY
    requires Sink(l) == Sink(ag.locals[s])
    requires UpBytesOk(WithLocal(ag, s, l), s) && UpPhaseOk(WithLocal(ag, s, l), s)
    ensures AgentOk(WithLocal(ag, s, l), got)
  {
    var ag' := WithLocal(ag, s, l);
    assert ag'.locals.Keys == ag.locals.Keys;
    forall r ensures DownBytesOk(ag', got, r) {
      assert DownBytesOk(ag, got, r);
      assert Sunk(ag', r) == Sunk(ag, r);
    }
    forall r ensures UpBytesOk(ag', r) && UpPhaseOk(ag', r) {
      assert UpBytesOk(ag, r) && UpPhaseOk(ag, r);
    }
    LocalsKeep(ag, ag', got);
    assert SentOk(ag', got);
    assert PcOk(ag', got);
  }

  lemma WriterTakeSink(l: Local)
    requires |l.toTcp.queue| > 0 && l.hand == []
    ensures Sink(l.(hand := l.toTcp.queue[0], toTcp := l.toTcp.(queue := l.toTcp.queue[1..]))) == Sink(l)
  {
    var q := l.toTcp.queue;
    assert l.written + q[0] + Flat(q[1..]) == l.written + [] + (q[0] + Flat(q[1..]));
  }

  lemma WriterWriteSink(l: Local, k: nat)
    requires k <= |l.hand|
    ensures Sink(l.(written := l.written + l.hand[..k], hand := l.hand[k..])) == Sink(l)
  {
    assert l.written + l.hand[..k] + l.hand[k..] == l.written + l.hand;
  }

  lemma PushSink(l: Local, b: Bytes)
    requires l.toTcp.CanSend()
    ensures Sink(l.(toTcp := l.toTcp.Send(b))) == Sink(l) + b
  {
    FlatAppend(l.toTcp.queue, b);
  }

  /** The writer task only moves its own bytes. */
  lemma WriterStepKeeps(ag: Agent, down: Pipe, st: AgentStep)
    requires AgentOk(ag, down.delivered) && AgentEnabled(ag, down, st)
    requires st.WriterTake? || st.WriterWrite? || st.WriterStop?
    ensures AgentOk(AgentNext(ag, down, st), down.delivered)
  {
    var s := st.stream;
    var l := ag.locals[s];
    assert LocalOk(ag, down.delivered, s) && UpBytesOk(ag, s) && UpPhaseOk(ag, s);
    var l' := AgentNext(ag, down, st).locals[s];
    match st {
      case WriterTake(_) => WriterTakeSink(l);
      case WriterWrite(_, k) => WriterWriteSink(l, k);
      case _ =>
    }
    LocalKeeps(ag, down.delivered, s, l');
  }

  /** The reader task takes a chunk from the target. */
  lemma ReadChunkKeeps(ag: Agent, down: Pipe, s: StreamId, b: Bytes)
    requires AgentOk(ag, down.delivered) && AgentEnabled(ag, down, ReadChunk(s, b))
    ensures AgentOk(AgentNext(ag, down, ReadChunk(s, b)), down.delivered)
  {
    assert LocalOk(ag, down.delivered, s) && UpBytesOk(ag, s) && UpPhaseOk(ag, s);
    var l := ag.locals[s];
    LocalKeeps(ag, down.delivered, s, l.(read := l.read + b, unsent := b, reader := Sending));
  }

  /** The reader task moves on without a chunk. */
  lemma ReaderStepKeeps(ag: Agent, down: Pipe, st: AgentStep)
    requires AgentOk(ag, down.delivered) && AgentEnabled(ag, down, st)
    requires st.ReadEof? || st.ReadFailed? || st.ReaderSendLost?
    ensures AgentOk(AgentNext(ag, down, st), down.delivered)
  {
    var s := st.stream;
    assert LocalOk(ag, down.delivered, s) && UpBytesOk(ag, s) && UpPhaseOk(ag, s);
    var l' := AgentNext(ag, down, st).locals[s];
    LocalKeeps(ag, down.delivered, s, l');
  }

  /** Accepting the reader's message keeps its own stream's bytes and grammar. */
  lemma ReaderSendOwn(ag: Agent, ag': Agent, s: StreamId, l: Local)
    requires s in ag.locals && l == ag.locals[s] && ReaderHasMessage(l) && ag.up.chan.CanSend()
    requires UpBytesOk(ag, s) && UpPhaseOk(ag, s)
    requires s in ag'.locals && ag'.locals[s] == AfterReaderSend(l, true)
    requires ag'.up == ag.up.Send(ReaderMessage(s, l))
    ensures UpBytesOk(ag', s) && UpPhaseOk(ag', s)
  {
    SendUp(ag, ReaderMessage(s, l), s);
  }

  lemma SentKeeps(ag: Agent, ag': Agent, got: seq<WireMessage>, m: WireMessage, s: StreamId)
    requires SentOk(ag, got) && ag.up.chan.CanSend() && ag'.up == ag.up.Send(m) && About(m, s) && s in Opens(got)
    requires Hello(ag') == Hello(ag)
    ensures SentOk(ag', got)
  {
    SendAppends(ag.up, m);
  }

  /** A reader's send changes nothing that flows down. */
  lemma ReaderSendDown(ag: Agent, ag': Agent, got: seq<WireMessage>, s: StreamId)
    requires AgentOk(ag, got) && s in ag.locals && ReaderHasMessage(ag.locals[s])
    requires ag' == WithLocal(ag, s, AfterReaderSend(ag.locals[s], true)).(up := ag'.up)
    ensures forall r :: DownBytesOk(ag', got, r)
    ensures forall r :: r in ag'.locals ==> LocalOk(ag', got, r)
  {
    assert ag'.locals.Keys == ag.locals.Keys;
    assert LocalOk(ag, got, s);
    SameDownBytes(ag, ag', got);
    LocalsKeep(ag, ag', got);
  }

  /** The reader's message was accepted by the shared queue. */
  lemma ReaderSendKeeps(ag: Agent, ag': Agent, got: seq<WireMessage>, s: StreamId, m: WireMessage)
    requires AgentOk(ag, got) && s in ag.locals && ReaderHasMessage(ag.locals[s]) && ag.up.chan.CanSend()
    requires m == ReaderMessage(s, ag.locals[s])
    requires ag' == WithLocal(ag, s, AfterReaderSend(ag.locals[s], true)).(up := ag.up.Send(m))
    ensures AgentOk(ag', got)
  {
    ReaderSendDown(ag, ag', got, s);
    assert LocalOk(ag, got, s);
    SendAppends(ag.up, m);
    assert UpBytesOk(ag', s) && UpPhaseOk(ag', s) by { ReaderSendOwn(ag, ag', s, ag.locals[s]); }
    SendUpOthers(ag, ag', m, s);
    SentKeeps(ag, ag', got, m, s);
  }

  /** The loop's own error reply was accepted. */
  lemma ReplySentKeeps(ag: Agent, got: seq<WireMessage>)
    requires AgentOk(ag, got) && ag.pc.Replying? && ag.up.chan.CanSend()
    ensures AgentOk(ag.(pc := Looping, up := ag.up.Send(ag.pc.reply)), got)
  {
    var m := ag.pc.reply;
    var ag' := ag.(pc := Looping, up := ag.up.Send(m));
    SendAppends(ag.up, m);
    assert UpBytesOk(ag', m.stream) && UpPhaseOk(ag', m.stream) by {
      assert UpBytesOk(ag, m.stream) && UpPhaseOk(ag, m.stream);
      SendUp(ag, m, m.stream);
    }
    SendUpOthers(ag, ag', m, m.stream);
    SameDownBytes(ag, ag', got);
    LocalsKeep(ag, ag', got);
    SentKeeps(ag, ag', got, m, m.stream);
  }

  lemma LeaveDownBytes(ag: Agent, got: seq<WireMessage>, s: StreamId)
    requires DownBytesOk(ag, got, s)
    ensures DownBytesOk(Leave(ag), got, s)
  {
    if ag.pc.Pushing? {
      PayloadAppend(ag.discarded, StreamData(ag.pc.stream, ag.pc.bytes), Some(s));
      assert Sunk(ag, s) + Payload(ag.discarded, Some(s)) + PushHand(ag, s)
          == Sunk(ag, s) + (Payload(ag.discarded, Some(s)) + PushHand(ag, s));
    }
  }

  /** A step that leaves the loop. */
  lemma LeaveKeeps(ag: Agent, got: seq<WireMessage>)
    requires AgentOk(ag, got)
    ensures AgentOk(Leave(ag), got)
  {
    var ag' := Leave(ag);
    forall s ensures DownBytesOk(ag', got, s) {
      assert DownBytesOk(ag, got, s);
      LeaveDownBytes(ag, got, s);
    }
    forall s ensures UpBytesOk(ag', s) && UpPhaseOk(ag', s) {
      assert UpBytesOk(ag, s) && UpPhaseOk(ag, s);
    }
    LocalsKeep(ag, ag', got);
    assert SentOk(ag', got);
  }

  /** A new local has written, read and queued nothing. */
  lemma DialBytes(ag: Agent, ag': Agent, got: seq<WireMessage>, s: StreamId)
    requires ag.pc.Dialing? && PcOk(ag, got) && DownBytesOk(ag, got, s) && UpBytesOk(ag, s) && UpPhaseOk(ag, s)
    requires ag' == ag.(pc := Looping, streams := ag.streams + {ag.pc.stream},
                        locals := ag.locals[ag.pc.stream := NewLocal(ag.pc.endpoint)])
    ensures DownBytesOk(ag', got, s) && UpBytesOk(ag', s) && UpPhaseOk(ag', s)
  {
    if s == ag.pc.stream {
      assert Sink(NewLocal(ag.pc.endpoint)) == [];
      assert |Payload(got, Some(s))| == |Sunk(ag, s)| + |Payload(ag.discarded, Some(s))| + |PushHand(ag, s)|;
    }
  }

  /** The local target answered: the stream enters the map with an empty channel. */
  lemma DialOkKeeps(ag: Agent, down: Pipe)
    requires AgentOk(ag, down.delivered) && ag.pc.Dialing?
    ensures AgentOk(AgentNext(ag, down, DialOk), down.delivered)
  {
    var got, d, ag' := down.delivered, ag.pc.stream, AgentNext(ag, down, DialOk);
    assert ag'.locals.Keys == ag.locals.Keys + {d};
    forall s ensures DownBytesOk(ag', got, s) && UpBytesOk(ag', s) && UpPhaseOk(ag', s) {
      assert DownBytesOk(ag, got, s) && UpBytesOk(ag, s) && UpPhaseOk(ag, s);
      DialBytes(ag, ag', got, s);
    }
    forall s | s in ag'.locals ensures LocalOk(ag', got, s) {
      if s == d {
        assert EndpointFor(ag', got, s, ag.pc.target, ag.pc.endpoint);
      } else {
        assert LocalOk(ag, got, s);
        var target :| EndpointFor(ag, got, s, target, ag.locals[s].endpoint);
        assert EndpointFor(ag', got, s, target, ag'.locals[s].endpoint);
      }
    }
    assert SentOk(ag', got);
  }

  /** The loop hands a chunk to a local channel. */
  lemma PushDoneKeeps(ag: Agent, down: Pipe)
    requires AgentOk(ag, down.delivered) && AgentEnabled(ag, down, PushDone)
    ensures AgentOk(AgentNext(ag, down, PushDone), down.delivered)
  {
    var got, ag', s := down.delivered, AgentNext(ag, down, PushDone), ag.pc.stream;
    assert LocalOk(ag, got, s) && DownBytesOk(ag, got, s);
    PushSink(ag.locals[s], ag.pc.bytes);
    assert ag'.locals.Keys == ag.locals.Keys;
    SameDownBytes(ag, ag', got);
    forall r ensures UpBytesOk(ag', r) && UpPhaseOk(ag', r) {
      assert UpBytesOk(ag, r) && UpPhaseOk(ag, r);
    }
    LocalsKeep(ag, ag', got);
    assert SentOk(ag', got);
  }

  /** The dial failed, or the send task moved a message. */
  lemma QuietStepKeeps(ag: Agent, down: Pipe, st: AgentStep)
    requires AgentOk(ag, down.delivered) && AgentEnabled(ag, down, st)
    requires st.DialFailed? || st.UpMove?
    ensures AgentOk(AgentNext(ag, down, st), down.delivered)
  {
    var got, ag' := down.delivered, AgentNext(ag, down, st);
    if st.UpMove? {
      MoveKeepsSent(ag.up, st.move);
    }
    SameDownBytes(ag, ag', got);
    forall r ensures UpBytesOk(ag', r) && UpPhaseOk(ag', r) {
      assert UpBytesOk(ag, r) && UpPhaseOk(ag, r);
    }
    LocalsKeep(ag, ag', got);
    assert SentOk(ag', got);
  }

  /** The messages a pipe has delivered after this step. */
  function DownAfter(down: Pipe, st: AgentStep): Pipe
    requires st.ReceiveFrame? ==> down.CanReceive()
  {
    if st.ReceiveFrame? then down.Receive() else down
  }

  lemma AgentIdentity(ag: Agent, down: Pipe, st: AgentStep)
    requires AgentEnabled(ag, down, st)
    ensures var ag' := AgentNext(ag, down, st);
      ag'.code == ag.code && ag'.device == ag.device && ag'.exposes == ag.exposes && ag'.up.delivered == ag.up.delivered
  {
    if st.UpMove? {
      MoveKeepsSent(ag.up, st.move);
    }
  }

  /** Every step of the agent process keeps its invariant. */
  lemma AgentStepKeeps(ag: Agent, down: Pipe, st: AgentStep)
    requires AgentOk(ag, down.delivered) && DownGrammar(down.Sent()) && AgentEnabled(ag, down, st)
    ensures AgentOk(AgentNext(ag, down, st), DownAfter(down, st).delivered)
  {
    match st {
      case ReceiveFrame =>
        ReceiveKeepsSent(down);
        var n := |down.delivered| + 1;
        DownGrammarPrefix(down.Sent(), n);
        assert down.Sent()[..n] == down.delivered + [down.wire[0]];
        ReceiveKeeps(ag, down.delivered, down.wire[0]);
      case ReplySent => ReplySentKeeps(ag, down.delivered);
      case ReplyLost => LeaveKeeps(ag, down.delivered);
      case PushLost => LeaveKeeps(ag, down.delivered);
      case LeaveLoop => LeaveKeeps(ag, down.delivered);
      case DialOk => DialOkKeeps(ag, down);
      case DialFailed(_) => QuietStepKeeps(ag, down, st);
      case PushDone => PushDoneKeeps(ag, down);
      case UpMove(_) => QuietStepKeeps(ag, down, st);
      case ReaderSend(s) => ReaderSendKeeps(ag, AgentNext(ag, down, st), down.delivered, s,
                                            ReaderMessage(s, ag.locals[s]));
      case WriterTake(_) => WriterStepKeeps(ag, down, st);
      case WriterWrite(_, _) => WriterStepKeeps(ag, down, st);
      case WriterStop(_) => WriterStepKeeps(ag, down, st);
      case ReadChunk(s, b) => ReadChunkKeeps(ag, down, s, b);
      case _ => ReaderStepKeeps(ag, down, st);
    }
  }
}
