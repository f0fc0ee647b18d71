/** The wire messages of the relay protocol, and what a log of messages says about one stream. */
module Wire {

  newtype byte = x: int | 0 <= x < 256

  type Bytes = seq<byte>
  type SessionId = string
  type SessionCode = string
  type StreamId = nat

  datatype Option<+T> = None | Some(value: T)

  const PROTOCOL_VERSION := "relaykit.v0"

  datatype TunnelEndpoint = TunnelEndpoint(host: string, port: nat)
  datatype TunnelKind = Tcp | Ssh | Rdp
  datatype TunnelSpec = TunnelSpec(name: string, kind: TunnelKind, target: TunnelEndpoint)
  datatype TunnelOffer = TunnelOffer(name: string, host: string, port: nat)

  datatype WireMessage =
    | AgentHello(protocol: string, code: SessionCode, device: Option<string>, exposes: seq<TunnelOffer>)
    | AgentReady(session: SessionId)
    | OpenStream(stream: StreamId, target: string)
    | StreamData(stream: StreamId, bytes: Bytes)
    | StreamClose(stream: StreamId)
    | StreamError(stream: StreamId, text: string)
    | Error(text: string)

  /** The stream a message belongs to, if it belongs to one. */
  function StreamOf(m: WireMessage): Option<StreamId> {
    match m
    case OpenStream(s, _) => Some(s)
    case StreamData(s, _) => Some(s)
    case StreamClose(s) => Some(s)
    case StreamError(s, _) => Some(s)
    case _ => None
  }

  predicate About(m: WireMessage, s: StreamId) {
    StreamOf(m) == Some(s)
  }

  /** The payload bytes a message carries for stream `who`, or for any stream if `who` is None. */
  function Chunk(m: WireMessage, who: Option<StreamId>): Bytes {
    if m.StreamData? && (who.None? || who.value == m.stream) then m.bytes else []
  }

  function ChunkOf(m: Option<WireMessage>, who: Option<StreamId>): Bytes {
    if m.Some? then Chunk(m.value, who) else []
  }

  /** The payload bytes a log carries for stream `who`, in log order. */
  function Payload(log: seq<WireMessage>, who: Option<StreamId>): Bytes {
    if |log| == 0 then [] else Payload(log[..|log| - 1], who) + Chunk(log[|log| - 1], who)
  }

  lemma PayloadAppend(log: seq<WireMessage>, m: WireMessage, who: Option<StreamId>)
    ensures Payload(log + [m], who) == Payload(log, who) + Chunk(m, who)
  {
    assert (log + [m])[..|log|] == log;
  }

  lemma Associative(x: Bytes, y: Bytes, z: Bytes)
    ensures x + (y + z) == (x + y) + z
  {
  }

  lemma {:induction false} PayloadConcat(a: seq<WireMessage>, b: seq<WireMessage>, who: Option<StreamId>)
    ensures Payload(a + b, who) == Payload(a, who) + Payload(b, who)
    decreases |b|
  {
    if |b| == 0 {
      assert a + b == a;
    } else {
      var init, last := b[..|b| - 1], b[|b| - 1];
      assert a + b == (a + init) + [last];
      PayloadAppend(a + init, last, who);
      PayloadConcat(a, init, who);
      Associative(Payload(a, who), Payload(init, who), Chunk(last, who));
    }
  }

  lemma {:induction false} NoPayload(log: seq<WireMessage>, s: StreamId)
    requires forall m :: m in log ==> !About(m, s)
    ensures Payload(log, Some(s)) == []
  {
    if |log| > 0 {
      assert log[|log| - 1] in log;
      NoPayload(log[..|log| - 1], s);
    }
  }

  /** If every data message of a log belongs to `s`, filtering by `s` loses nothing. */
  lemma {:induction false} PayloadOfSingleStream(log: seq<WireMessage>, s: StreamId)
    requires forall m :: m in log && m.StreamData? ==> m.stream == s
    ensures Payload(log, Some(s)) == Payload(log, None)
  {
    if |log| > 0 {
      assert log[|log| - 1] in log;
      PayloadOfSingleStream(log[..|log| - 1], s);
    }
  }

  /** The streams opened by a log. */
  function Opens(log: seq<WireMessage>): set<StreamId> {
    if |log| == 0 then {}
    else
      var m := log[|log| - 1];
      Opens(log[..|log| - 1]) + (if m.OpenStream? then {m.stream} else {})
  }

  lemma OpensAppend(log: seq<WireMessage>, m: WireMessage)
    ensures Opens(log + [m]) == Opens(log) + (if m.OpenStream? then {m.stream} else {})
  {
    assert (log + [m])[..|log|] == log;
  }

  /** What the relay may append to the messages it has already sent an agent. */
  predicate DownMessageOk(m: WireMessage, known: set<StreamId>) {
    match m
    case OpenStream(s, _) => s !in known
    case StreamData(s, _) => s in known
    case StreamClose(s) => s in known
    case StreamError(s, _) => s in known
    case _ => true
  }

  /** The relay's output to an agent: each stream is opened once, and first. */
  predicate DownGrammar(log: seq<WireMessage>) {
    |log| == 0 || (DownGrammar(log[..|log| - 1]) && DownMessageOk(log[|log| - 1], Opens(log[..|log| - 1])))
  }

  lemma DownGrammarAppend(log: seq<WireMessage>, m: WireMessage)
    ensures DownGrammar(log + [m]) <==> DownGrammar(log) && DownMessageOk(m, Opens(log))
  {
    assert (log + [m])[..|log|] == log;
  }

  lemma {:induction false} DownGrammarPrefix(log: seq<WireMessage>, n: nat)
    requires n <= |log| && DownGrammar(log)
    ensures DownGrammar(log[..n]) && Opens(log[..n]) <= Opens(log)
    decreases |log|
  {
    if n < |log| {
      DownGrammarPrefix(log[..|log| - 1], n);
      assert log[..|log| - 1][..n] == log[..n];
    } else {
      assert log[..n] == log;
    }
  }

  lemma {:induction false} NoDataBeforeOpen(log: seq<WireMessage>, s: StreamId)
    requires DownGrammar(log) && s !in Opens(log)
    ensures Payload(log, Some(s)) == []
  {
    if |log| > 0 {
      NoDataBeforeOpen(log[..|log| - 1], s);
    }
  }

  /** How far an agent's output about one stream has got in `Data* [Error] Close`. */
  datatype UpPhase = Flowing | Failed | Closed | Illegal

  function UpNext(p: UpPhase, m: WireMessage, s: StreamId): UpPhase {
    if !About(m, s) then p
    else if p == Flowing && m.StreamData? then Flowing
    else if p == Flowing && m.StreamError? then Failed
    else if (p == Flowing || p == Failed) && m.StreamClose? then Closed
    else Illegal
  }

  function UpPhaseOf(log: seq<WireMessage>, s: StreamId): UpPhase {
    if |log| == 0 then Flowing else UpNext(UpPhaseOf(log[..|log| - 1], s), log[|log| - 1], s)
  }

  lemma UpPhaseAppend(log: seq<WireMessage>, m: WireMessage, s: StreamId)
    ensures UpPhaseOf(log + [m], s) == UpNext(UpPhaseOf(log, s), m, s)
  {
    assert (log + [m])[..|log|] == log;
  }
}
