/** The agent's frame loop as the code it is: a table collected once, and a stream map updated in place.
    Each method refines the step of AgentProcess it implements. */
module AgentLoop {
  import opened Wire
  import opened AgentProcess
  import Pipes

  class AgentLoop {
    const exposes: seq<TunnelSpec>
    var table: map<string, TunnelEndpoint>
    var streams: set<StreamId>
    var pc: LoopPc
    var discarded: seq<WireMessage>

    /** The object holds the loop's part of the agent state `ag`, and its table is the collected one. */
    ghost predicate Holds(ag: Agent)
      reads this
    {
      && ag.exposes == exposes && ag.streams == streams && ag.pc == pc && ag.discarded == discarded
      && table == ExposeMap(exposes)
    }

    /** Collects the table: a later spec replaces an earlier one of the same name. */
    constructor (code: SessionCode, device: Option<string>, specs: seq<TunnelSpec>)
      ensures exposes == specs && Holds(NewAgent(code, device, specs))
    {
      exposes := specs;
      table, streams, pc, discarded := map[], {}, Looping, [];
      new;
      for i := 0 to |specs|
        invariant exposes == specs && streams == {} && pc.Looping? && discarded == []
        invariant table == ExposeMap(specs[..i])
      {
        assert specs[..i + 1][..i] == specs[..i];
        table := table[specs[i].name := specs[i].target];
      }
      assert specs[..|specs|] == specs;
    }

    /** One frame from the relay. */
    method HandleFrame(m: WireMessage, ghost ag: Agent)
      requires Holds(ag) && pc.Looping?
      modifies this
      ensures Holds(OnFrame(ag, m))
    {
      match m {
        case OpenStream(s, target) =>
          if target in table {
            pc := Dialing(s, target, table[target]);
          } else {
            pc := Replying(StreamError(s, NotExposed(target)));
          }
        case StreamData(s, bytes) =>
          if s in streams {
            pc := Pushing(s, bytes);
          } else {
            discarded := discarded + [m];
          }
        case StreamClose(s) => streams := streams - {s};
        case StreamError(s, _) => streams := streams - {s};
        case Error(_) => Finish(ag);
        case AgentReady(_) =>
        case AgentHello(_, _, _, _) =>
      }
    }

    /** The dialled target answered: the stream enters the map. */
    method Opened(ghost ag: Agent, ghost down: Pipes.Pipe)
      requires Holds(ag) && pc.Dialing?
      modifies this
      ensures Holds(AgentNext(ag, down, DialOk))
    {
      streams := streams + {pc.stream};
      pc := Looping;
    }

    /** The target could not be dialled: an error is sent instead. */
    method DialRefused(text: string, ghost ag: Agent, ghost down: Pipes.Pipe)
      requires Holds(ag) && pc.Dialing?
      modifies this
      ensures Holds(AgentNext(ag, down, DialFailed(text)))
    {
      pc := Replying(StreamError(pc.stream, text));
    }

    /** Leaving the loop clears the map; a chunk still being pushed is lost. */
    method Finish(ghost ag: Agent)
      requires Holds(ag)
      modifies this
      ensures Holds(Leave(ag))
    {
      if pc.Pushing? {
        discarded := discarded + [StreamData(pc.stream, pc.bytes)];
      }
      streams := {};
      pc := Exited;
    }

    /** The pending reply was accepted by the channel to the relay. */
    method Replied(ghost ag: Agent, ghost down: Pipes.Pipe)
      requires Holds(ag) && AgentEnabled(ag, down, ReplySent)
      modifies this
      ensures Holds(AgentNext(ag, down, ReplySent))
    {
      pc := Looping;
    }

    /** The pending chunk was accepted by the local channel. */
    method Pushed(ghost ag: Agent, ghost down: Pipes.Pipe)
      requires Holds(ag) && AgentEnabled(ag, down, PushDone)
      modifies this
      ensures Holds(AgentNext(ag, down, PushDone))
    {
      pc := Looping;
    }

    /** An agent this object holds the loop of, whose channels all have room. */
    ghost function Around(): (ag: Agent)
      requires table == ExposeMap(exposes)
      reads this
      ensures Holds(ag) && ag.up.chan.CanSend()
      ensures forall s :: s in streams ==> s in ag.locals && ag.locals[s].toTcp.CanSend()
    {
      Agent("", None, exposes, Pipes.NewPipe(), pc, streams,
            map s | s in streams :: NewLocal(TunnelEndpoint("", 0)), discarded)
    }

    /** One frame with all that follows from it: the dial ends with `refusal` or succeeds, and what the
        loop then has to send, an error to the relay or the frame's data to a local, is accepted or meets a
        closed channel, which leaves the loop. */
    method ServeFrame(m: WireMessage, refusal: Option<string>, accepted: bool)
      returns (told: Option<WireMessage>, handed: Option<WireMessage>)
      requires pc.Looping? && table == ExposeMap(exposes)
      modifies this
      ensures table == old(table)
      ensures pc == if Leaves(m, refusal, accepted, table, old(streams)) then Exited else Looping
      ensures streams == if pc.Exited? then {} else StreamsAfter(m, refusal, table, old(streams))
      ensures discarded == if m.StreamData? && (m.stream !in old(streams) || pc.Exited?) then old(discarded) + [m]
                           else old(discarded)
      ensures told == if accepted then RefusalOf(m, refusal, table) else None
      ensures handed == if m.StreamData? && m.stream in old(streams) && accepted then Some(m) else None
    {
      told, handed := None, None;
      ghost var ag, down := Around(), Pipes.NewPipe();
      HandleFrame(m, ag);
      ag := OnFrame(ag, m);
      if pc.Dialing? {
        if refusal.Some? {
          DialRefused(refusal.value, ag, down);
          ag := AgentNext(ag, down, DialFailed(refusal.value));
        } else {
          Opened(ag, down);
          ag := AgentNext(ag, down, DialOk);
        }
      }
      if pc.Replying? || pc.Pushing? {
        if !accepted {
          Finish(ag);
        } else if pc.Replying? {
          told := Some(pc.reply);
          Replied(ag, down);
        } else {
          handed := Some(StreamData(pc.stream, pc.bytes));
          Pushed(ag, down);
        }
      }
    }

    /** The whole loop over the frames of a connection. While it lasts, its map holds exactly the streams
        that were opened and whose close or error has not come since; exactly the data of those streams
        was handed to their locals, in order, and the data of others discarded; and every request that
        could not be served was answered with an error. It ends early only at an error frame or a closed
        channel, and then the map is empty. */
    method Run(frames: seq<WireMessage>, refusal: nat -> Option<string>, accepted: nat -> bool)
      returns (taken: nat, told: seq<WireMessage>, handed: seq<WireMessage>)
      requires pc.Looping? && streams == {} && discarded == [] && table == ExposeMap(exposes)
      modifies this
      ensures taken <= |frames| && table == ExposeMap(exposes)
      ensures pc.Looping? ==> taken == |frames| && discarded == Unclaimed(frames, table, refusal, taken)
      ensures pc.Looping? ==> forall s :: s in streams <==> OpenAt(frames, table, refusal, taken, s)
      ensures !pc.Looping? ==> pc.Exited? && streams == {} && taken < |frames|
      ensures !pc.Looping? ==> frames[taken].Error? || !accepted(taken)
      ensures told == Refusals(frames, table, refusal, taken)
      ensures handed == Claimed(frames, table, refusal, taken)
      ensures !pc.Looping? ==>
                discarded == Unclaimed(frames, table, refusal, taken)
                             + (if frames[taken].StreamData? then [frames[taken]] else [])
    {
      taken, told, handed := 0, [], [];
      while taken < |frames|
        invariant taken <= |frames| && pc.Looping? && table == ExposeMap(exposes)
        invariant forall s :: s in streams <==> OpenAt(frames, table, refusal, taken, s)
        invariant discarded == Unclaimed(frames, table, refusal, taken)
        invariant told == Refusals(frames, table, refusal, taken)
        invariant handed == Claimed(frames, table, refusal, taken)
      {
        var m := frames[taken];
        ghost var before := streams;
        var answer, chunk := ServeFrame(m, refusal(taken), accepted(taken));
        if pc.Exited? {
          return;
        }
        forall s ensures s in streams <==> OpenAt(frames, table, refusal, taken + 1, s) {
          OpenAtNext(frames, table, refusal, taken, s);
        }
        told := told + (if answer.Some? then [answer.value] else []);
        handed := handed + (if chunk.Some? then [chunk.value] else []);
        taken := taken + 1;
      }
    }
  }

  predicate Ends(m: WireMessage, s: StreamId) {
    (m.StreamClose? || m.StreamError?) && m.stream == s
  }

  /** The frame asks for an exposed target, and the dial succeeds. */
  predicate OpensHere(m: WireMessage, table: map<string, TunnelEndpoint>, refusal: Option<string>, s: StreamId) {
    m.OpenStream? && m.stream == s && m.target in table && refusal.None?
  }

  /** The frame leaves the loop: an error, or a send that a closed channel refuses. */
  predicate Leaves(m: WireMessage, refusal: Option<string>, accepted: bool, table: map<string, TunnelEndpoint>,
                   streams: set<StreamId>) {
    m.Error? || (!accepted && (
      (m.OpenStream? && !OpensHere(m, table, refusal, m.stream)) || (m.StreamData? && m.stream in streams)))
  }

  /** The error a request that cannot be served is answered with. */
  function RefusalOf(m: WireMessage, refusal: Option<string>, table: map<string, TunnelEndpoint>): Option<WireMessage> {
    if !m.OpenStream? then None
    else if m.target !in table then Some(StreamError(m.stream, NotExposed(m.target)))
    else if refusal.Some? then Some(StreamError(m.stream, refusal.value))
    else None
  }

  /** The errors that the first `n` frames are answered with. */
  function Refusals(frames: seq<WireMessage>, table: map<string, TunnelEndpoint>, refusal: nat -> Option<string>,
                    n: nat): seq<WireMessage>
    requires n <= |frames|
  {
    if n == 0 then []
    else
      var answer := RefusalOf(frames[n - 1], refusal(n - 1), table);
      Refusals(frames, table, refusal, n - 1) + (if answer.Some? then [answer.value] else [])
  }

  function StreamsAfter(m: WireMessage, refusal: Option<string>, table: map<string, TunnelEndpoint>,
                        streams: set<StreamId>): set<StreamId> {
    if m.OpenStream? && OpensHere(m, table, refusal, m.stream) then streams + {m.stream}
    else if m.StreamClose? || m.StreamError? then streams - {m.stream}
    else streams
  }

  predicate NoneEnds(frames: seq<WireMessage>, from: nat, to: nat, s: StreamId)
    requires to <= |frames|
  {
    forall j :: from <= j < to ==> !Ends(frames[j], s)
  }

  /** Among the first `n` frames one opened `s`, and none after it ended `s`. */
  ghost predicate OpenAt(frames: seq<WireMessage>, table: map<string, TunnelEndpoint>, refusal: nat -> Option<string>,
                         n: nat, s: StreamId)
    requires n <= |frames|
  {
    exists i: nat :: i < n && OpensHere(frames[i], table, refusal(i), s) && NoneEnds(frames, i + 1, n, s)
  }

  lemma OpenAtNext(frames: seq<WireMessage>, table: map<string, TunnelEndpoint>, refusal: nat -> Option<string>,
                   n: nat, s: StreamId)
    requires n < |frames|
    ensures OpenAt(frames, table, refusal, n + 1, s) <==>
              !Ends(frames[n], s) && (OpensHere(frames[n], table, refusal(n), s)
                  || OpenAt(frames, table, refusal, n, s))
  {
    if OpenAt(frames, table, refusal, n, s) && !Ends(frames[n], s) {
      var i: nat :| i < n && OpensHere(frames[i], table, refusal(i), s) && NoneEnds(frames, i + 1, n, s);
      assert NoneEnds(frames, i + 1, n + 1, s);
    }
  }

  /** The data among the first `n` frames that came for streams not open at the time. */
  ghost function Unclaimed(frames: seq<WireMessage>, table: map<string, TunnelEndpoint>, refusal: nat -> Option<string>,
                           n: nat): seq<WireMessage>
    requires n <= |frames|
  {
    if n == 0 then []
    else
      var m := frames[n - 1];
      Unclaimed(frames, table, refusal, n - 1)
      + (if m.StreamData? && !OpenAt(frames, table, refusal, n - 1, m.stream) then [m] else [])
  }

  /** The data among the first `n` frames that came for streams open at the time. */
  ghost function Claimed(frames: seq<WireMessage>, table: map<string, TunnelEndpoint>, refusal: nat -> Option<string>,
                         n: nat): seq<WireMessage>
    requires n <= |frames|
  {
    if n == 0 then []
    else
      var m := frames[n - 1];
      Claimed(frames, table, refusal, n - 1)
      + (if m.StreamData? && OpenAt(frames, table, refusal, n - 1, m.stream) then [m] else [])
  }
}
