/** Bounded channels, and the pipe a peer's messages travel: channel, forwarding task, websocket. */
module Pipes {
  import opened Wire

  const CAPACITY: nat := 256

  /** A bounded channel. `open` is whether the receiver still exists. */
  datatype Channel<T> = Channel(queue: seq<T>, open: bool) {
    predicate CanSend() { open && |queue| < CAPACITY }

    function Send(m: T): Channel<T>
      requires CanSend()
    {
      this.(queue := queue + [m])
    }

    /** `try_send(..).ok()`: a full or closed channel drops the message. */
    function TrySend(m: T): Channel<T> {
      if CanSend() then Send(m) else this
    }
  }

  /** `chan` is drained by a task that holds at most one message (`hand`) and writes it to `wire`;
      the peer's reader pops `wire`. `delivered` records what the reader has popped so far.
      A task that stops drops the receiver: what it held and what was queued never moves again. */
  datatype Pipe = Pipe(chan: Channel<WireMessage>, running: bool, hand: Option<WireMessage>,
                       wire: seq<WireMessage>, delivered: seq<WireMessage>)
  {
    function InFlight(): seq<WireMessage> {
      wire + (if hand.Some? then [hand.value] else []) + chan.queue
    }

    /** Everything ever accepted by the pipe, in order. */
    function Sent(): seq<WireMessage> {
      delivered + InFlight()
    }

    predicate Bounded() {
      |chan.queue| <= CAPACITY
    }

    function Send(m: WireMessage): Pipe
      requires chan.CanSend()
    {
      this.(chan := chan.Send(m))
    }

    function TrySend(m: WireMessage): Pipe {
      this.(chan := chan.TrySend(m))
    }

    function Start(): Pipe { this.(running := true) }

    function Stop(): Pipe { this.(running := false, chan := chan.(open := false)) }

    predicate CanTake() { running && hand.None? && |chan.queue| > 0 }

    function Take(): Pipe
      requires CanTake()
    {
      this.(hand := Some(chan.queue[0]), chan := chan.(queue := chan.queue[1..]))
    }

    predicate CanPut() { running && hand.Some? }

    function Put(): Pipe
      requires CanPut()
    {
      this.(wire := wire + [hand.value], hand := None)
    }

    predicate CanReceive() { |wire| > 0 }

    function Receive(): Pipe
      requires CanReceive()
    {
      this.(wire := wire[1..], delivered := delivered + [wire[0]])
    }
  }

  function NewPipe(): Pipe {
    Pipe(Channel([], true), false, None, [], [])
  }

  lemma SendAppends(p: Pipe, m: WireMessage)
    requires p.chan.CanSend()
    ensures p.Send(m).Sent() == p.Sent() + [m]
    ensures p.Bounded() ==> p.Send(m).Bounded()
  {
    assert p.Send(m).InFlight() == p.InFlight() + [m];
  }

  lemma TrySendAppendsOrDrops(p: Pipe, m: WireMessage)
    ensures p.TrySend(m).Sent() == if p.chan.CanSend() then p.Sent() + [m] else p.Sent()
    ensures p.Bounded() ==> p.TrySend(m).Bounded()
  {
    if p.chan.CanSend() {
      SendAppends(p, m);
    }
  }

  datatype Move = TakeMove | PutMove | StopMove | StartMove

  predicate CanMove(p: Pipe, v: Move) {
    match v
    case TakeMove => p.CanTake()
    case PutMove => p.CanPut()
    case StopMove => true
    case StartMove => true
  }

  function Moved(p: Pipe, v: Move): Pipe
    requires CanMove(p, v)
  {
    match v
    case TakeMove => p.Take()
    case PutMove => p.Put()
    case StopMove => p.Stop()
    case StartMove => p.Start()
  }

  /** Inside the pipe nothing is lost, duplicated or reordered. */
  lemma MoveKeepsSent(p: Pipe, v: Move)
    requires CanMove(p, v)
    ensures Moved(p, v).Sent() == p.Sent()
    ensures Moved(p, v).delivered == p.delivered
    ensures p.Bounded() ==> Moved(p, v).Bounded()
  {
    match v
    case TakeMove =>
      assert p.chan.queue == [p.chan.queue[0]] + p.chan.queue[1..];
    case PutMove =>
      assert p.wire + [p.hand.value] + p.chan.queue == p.Put().wire + p.Put().chan.queue;
    case _ =>
  }

  lemma ReceiveKeepsSent(p: Pipe)
    requires p.CanReceive()
    ensures p.Receive().Sent() == p.Sent()
    ensures p.Receive().delivered <= p.Sent()
    ensures p.Bounded() ==> p.Receive().Bounded()
  {
    assert p.wire == [p.wire[0]] + p.wire[1..];
    assert p.Receive().Sent() == p.Sent();
  }
}
