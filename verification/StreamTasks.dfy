/** The loops that carry one stream at its two ends, run on their own: each task owns a buffer it reads
    into, and turns a byte source into messages or messages into written bytes. */
module StreamTasks {
  import opened Wire
  import opened OperatorStream
  import opened Grammar

  /** How many bytes a read gives when `left` remain: at least one, at most the buffer. The source's own
      choice is `wish`. */
  function ReadSize(left: nat, wish: nat): (n: nat)
    requires left > 0
    ensures 0 < n <= left && n <= READ_BUFFER
  {
    var most := if left < READ_BUFFER then left else READ_BUFFER;
    if 0 < wish <= most then wish else most
  }

  /** One read: the buffer's first bytes are overwritten. */
  method ReadInto(buffer: array<byte>, source: Bytes)
    requires |source| <= buffer.Length
    modifies buffer
    ensures buffer[..|source|] == source
    ensures buffer[|source|..] == old(buffer[|source|..])
  {
    for i := 0 to |source|
      invariant buffer[..i] == source[..i]
      invariant buffer[|source|..] == old(buffer[|source|..])
    {
      buffer[i] := source[i];
    }
  }

  /** Every message is about `s` and no data message is empty or larger than the buffer. */
  predicate ChunksOk(sent: seq<WireMessage>, s: StreamId) {
    forall m :: m in sent ==> About(m, s) && (m.StreamData? ==> 0 < |m.bytes| <= READ_BUFFER)
  }

  /** All of the input in data messages, then an error if the source failed, then a close. */
  predicate Complete(sent: seq<WireMessage>, s: StreamId, input: Bytes, failure: Option<string>) {
    && EndsInClose(sent) && Payload(sent, Some(s)) == input
    && (DataThenError(sent[..|sent| - 1]) <==> failure.Some?)
  }

  lemma DataAppend(sent: seq<WireMessage>, s: StreamId, input: Bytes, at: nat, read: nat)
    requires at + read <= |input| && 0 < read <= READ_BUFFER
    requires ChunksOk(sent, s) && AllData(sent) && Payload(sent, Some(s)) == input[..at]
    ensures var more := sent + [StreamData(s, input[at..at + read])];
      ChunksOk(more, s) && AllData(more) && Payload(more, Some(s)) == input[..at + read]
  {
    var m := StreamData(s, input[at..at + read]);
    PayloadAppend(sent, m, Some(s));
    WordGrows(sent, m);
    assert input[..at] + input[at..at + read] == input[..at + read];
  }

  /** Ending a word: an error after data, a close after either. */
  lemma EndAppend(sent: seq<WireMessage>, m: WireMessage, s: StreamId)
    requires ChunksOk(sent, s) && (m.StreamClose? || m.StreamError?) && About(m, s)
    ensures ChunksOk(sent + [m], s) && Payload(sent + [m], Some(s)) == Payload(sent, Some(s))
    ensures AllData(sent) && m.StreamError? ==> DataThenError(sent + [m])
    ensures (AllData(sent) || DataThenError(sent)) && m.StreamClose? ==> EndsInClose(sent + [m])
    ensures (sent + [m])[..|sent|] == sent
  {
    PayloadAppend(sent, m, Some(s));
    WordGrows(sent, m);
  }

  /** The data loop of a reading task: one message per read, until the input or the channel ends. */
  method SendChunks(s: StreamId, input: Bytes, wish: nat -> nat, accepts: nat)
    returns (sent: seq<WireMessage>, closed: bool)
    ensures |sent| <= accepts && ChunksOk(sent, s) && AllData(sent)
    ensures Payload(sent, Some(s)) <= input
    ensures if closed then |sent| == accepts else Payload(sent, Some(s)) == input
  {
    var buffer := new byte[READ_BUFFER];
    var at: nat := 0;
    sent, closed := [], false;
    while at < |input|
      invariant at <= |input| && |sent| <= accepts && ChunksOk(sent, s) && AllData(sent)
      invariant Payload(sent, Some(s)) == input[..at]
      decreases |input| - at
    {
      var read := ReadSize(|input| - at, wish(at));
      ReadInto(buffer, input[at..at + read]);
      if |sent| == accepts {
        return sent, true;
      }
      DataAppend(sent, s, input, at, read);
      sent := sent + [StreamData(s, buffer[..read])];
      at := at + read;
    }
    assert input[..|input|] == input;
  }

  /** The reader task of a local stream. `failure` is how the source ends, if not by end of file; the
      shared channel takes `accepts` messages and is closed afterwards. The task sends a word of the
      grammar carrying a prefix of what it read, and stops short only when the channel closed. */
  method ReaderTask(s: StreamId, input: Bytes, wish: nat -> nat, failure: Option<string>, accepts: nat)
    returns (sent: seq<WireMessage>)
    ensures |sent| <= accepts && ChunksOk(sent, s) && UpWord(sent)
    ensures Payload(sent, Some(s)) <= input
    ensures Complete(sent, s, input, failure) || |sent| == accepts
  {
    var closed: bool;
    sent, closed := SendChunks(s, input, wish, accepts);
    if !closed && failure.Some? && |sent| < accepts {
      EndAppend(sent, StreamError(s, failure.value), s);
      sent := sent + [StreamError(s, failure.value)];
    }
    if |sent| < accepts {
      EndAppend(sent, StreamClose(s), s);
      sent := sent + [StreamClose(s)];
    }
  }

  /** The upstream half of the operator's bridge. The websocket accepts `accepts` messages and then fails;
      the local socket ends in a read error if `readFails`. On success everything read was sent, then a
      close; on an error a prefix was sent, and no close. */
  method ToRelay(input: Bytes, wish: nat -> nat, readFails: bool, accepts: nat)
    returns (sent: seq<WireMessage>, ok: bool)
    ensures |sent| <= accepts && ChunksOk(sent, BRIDGE_STREAM)
    ensures ok ==> !readFails && EndsInClose(sent) && AllData(sent[..|sent| - 1]) && Payload(sent, None) == input
    ensures !ok ==> AllData(sent) && Payload(sent, None) <= input
    ensures !ok ==> |sent| == accepts || (readFails && Payload(sent, None) == input)
  {
    var closed: bool;
    sent, closed := SendChunks(BRIDGE_STREAM, input, wish, accepts);
    PayloadOfSingleStream(sent, BRIDGE_STREAM);
    ok := !closed && !readFails && |sent| < accepts;
    if ok {
      EndAppend(sent, StreamClose(BRIDGE_STREAM), BRIDGE_STREAM);
      sent := sent + [StreamClose(BRIDGE_STREAM)];
      PayloadOfSingleStream(sent, BRIDGE_STREAM);
    }
  }

  /** The operator handler's loop over the frames of its websocket. The agent's channel takes `accepts`
      messages and is closed afterwards. Every frame is sent on under the stream's id, in order; the loop
      stops after an error frame, and fails at the first frame the channel refuses. */
  method ForwardFrames(s: StreamId, frames: seq<WireMessage>, accepts: nat)
    returns (sent: seq<WireMessage>, taken: nat, ok: bool)
    ensures taken <= |frames| && |sent| <= accepts && (!ok ==> taken > 0)
    ensures sent == Relabelled(frames[..if ok then taken else taken - 1], s)
    ensures forall i :: 0 <= i < taken - 1 ==> !frames[i].StreamError?
    ensures ok ==> taken == |frames| || (taken > 0 && frames[taken - 1].StreamError?)
    ensures !ok ==> |sent| == accepts && StreamOf(frames[taken - 1]).Some?
  {
    sent := [];
    for i := 0 to |frames|
      invariant sent == Relabelled(frames[..i], s) && |sent| <= accepts
      invariant forall k :: 0 <= k < i ==> !frames[k].StreamError?
    {
      var frame := frames[i];
      RelabelledNext(frames, i, s);
      match frame {
        case StreamData(_, bytes) =>
          if |sent| == accepts {
            return sent, i + 1, false;
          }
          sent := sent + [StreamData(s, bytes)];
        case StreamClose(_) =>
          if |sent| == accepts {
            return sent, i + 1, false;
          }
          sent := sent + [StreamClose(s)];
        case StreamError(_, text) =>
          if |sent| == accepts {
            return sent, i + 1, false;
          }
          sent := sent + [StreamError(s, text)];
          return sent, i + 1, true;
        case _ =>
      }
    }
    assert frames[..|frames|] == frames;
    taken, ok := |frames|, true;
  }

  predicate EndsBridge(m: WireMessage) {
    m.StreamClose? || m.StreamError? || m.Error?
  }

  /** How the downstream half ends. */
  datatype BridgeEnd = Over | ToldError | WriteFailed | SocketFailed

  /** The downstream half: data is written until the first message that ends the bridge. The websocket
      breaks after the last frame if `breaks`, and the local socket takes `room` bytes and then fails. */
  method FromRelay(frames: seq<WireMessage>, breaks: bool, room: nat)
    returns (written: Bytes, taken: nat, end: BridgeEnd)
    ensures taken <= |frames| && |written| <= room
    ensures forall i :: 0 <= i < taken ==> !EndsBridge(frames[i])
    ensures !end.WriteFailed? ==> written == Payload(frames[..taken], None)
    ensures end.WriteFailed? ==> taken < |frames| && |written| == room && written < Payload(frames[..taken + 1], None)
    ensures end == if taken == |frames| then (if breaks then SocketFailed else Over)
                   else if frames[taken].StreamClose? then Over
                   else if EndsBridge(frames[taken]) then ToldError
                   else WriteFailed
  {
    written := [];
    for i := 0 to |frames|
      invariant written == Payload(frames[..i], None) && |written| <= room
      invariant forall k :: 0 <= k < i ==> !EndsBridge(frames[k])
    {
      var frame := frames[i];
      if EndsBridge(frame) {
        return written, i, if frame.StreamClose? then Over else ToldError;
      }
      assert frames[..i + 1] == frames[..i] + [frame];
      PayloadAppend(frames[..i], frame, None);
      if frame.StreamData? {
        if |written| + |frame.bytes| > room {
          written := written + frame.bytes[..room - |written|];
          return written, i, WriteFailed;
        }
        written := written + frame.bytes;
      }
    }
    assert frames[..|frames|] == frames;
    taken, end := |frames|, if breaks then SocketFailed else Over;
  }
}
