/** End-to-end delivery: what reaches the target is what the operator wrote, and the other way round. */
module Delivery {
  import opened Wire
  import opened Pipes
  import opened AgentProcess
  import opened OperatorStream
  import opened RelaySystem
  import opened RelayInvariant
  import opened Invariance
  import opened Evolution

  /** `w` occurs in some run of the system. */
  ghost predicate Reachable(w: World) {
    exists run, steps :: IsRun(run, steps) && w in run
  }

  lemma ReachableInv(w: World)
    requires Reachable(w)
    ensures Inv(w)
  {
    var run, steps :| IsRun(run, steps) && w in run;
    var i :| 0 <= i < |run| && run[i] == w;
    RunKeeps(run, steps, i);
  }

  lemma InvLinks(w: World, s: StreamId)
    requires Inv(w) && s in w.ops && w.ops[s].agent.Some?
    ensures OpInv(w, s) && AgInv(w, w.ops[s].agent.value)
  {
    assert OpInv(w, s);
  }

  /** Every byte the operator's socket gave stream `s` is, in this order: written to the local target,
      held by the local writer, queued for it, discarded by the agent's loop, in the loop's hand, on
      the pipe all streams of the session share, or still on the operator's side. */
  lemma UpstreamAccounting(w: World, s: StreamId, a: AgentId)
    requires Reachable(w) && s in w.ops && w.ops[s].agent == Some(a)
    ensures HasAgent(w, a)
    ensures w.ops[s].bridge.read ==
              Sunk(w.agents[a], s) + Payload(w.agents[a].discarded, Some(s)) + PushHand(w.agents[a], s)
              + Payload(w.toAgent[a].InFlight(), Some(s)) + UpPath(w.ops[s])
  {
    ReachableInv(w);
    InvLinks(w, s);
    assert DownBytesOk(w.agents[a], w.toAgent[a].delivered, s);
    PayloadConcat(w.toAgent[a].delivered, w.toAgent[a].InFlight(), Some(s));
  }

  /** Every byte the local target gave stream `s` is, in this order: written to the operator's socket,
      being written, on the pipe to the operator, dropped by the relay, in the relay's hand, on the
      pipe all streams of the agent share, or still in the reader task. */
  lemma DownstreamAccounting(w: World, s: StreamId, a: AgentId)
    requires Reachable(w) && s in w.ops && w.ops[s].agent == Some(a)
    ensures HasAgent(w, a) && s in w.toOp
    ensures ReadFrom(w.agents[a], s) ==
              w.ops[s].bridge.written + w.ops[s].bridge.writing + Payload(w.toOp[s].InFlight(), None)
              + Payload(w.handlers[a].dropped, Some(s)) + ChunkOf(w.handlers[a].hand, Some(s))
              + Payload(w.agents[a].up.InFlight(), Some(s)) + Unsent(w.agents[a], s)
  {
    ReachableInv(w);
    InvLinks(w, s);
    assert UpBytesOk(w.agents[a], s);
    PayloadConcat(w.agents[a].up.delivered, w.agents[a].up.InFlight(), Some(s));
    PayloadConcat(w.toOp[s].delivered, w.toOp[s].InFlight(), None);
  }

  /** While the agent's loop still knows the stream nothing sent to the target was lost, and while the
      relay's maps still hold it nothing sent to the operator was lost. */
  lemma NothingLostYet(w: World, s: StreamId, a: AgentId)
    requires Reachable(w) && s in w.ops && w.ops[s].agent == Some(a)
    ensures HasAgent(w, a)
    ensures s in w.agents[a].streams ==> Payload(w.agents[a].discarded, Some(s)) == []
    ensures InSomeMap(w.sessions, s) ==> Payload(w.handlers[a].dropped, Some(s)) == []
  {
    ReachableInv(w);
    InvLinks(w, s);
    assert DownBytesOk(w.agents[a], w.toAgent[a].delivered, s);
    if InSomeMap(w.sessions, s) {
      NoPayload(w.handlers[a].dropped, s);
    }
  }

  /** Nothing of `s` is on its way from the operator to the target. */
  ghost predicate UpstreamIdle(op: Operator, s: StreamId, ag: Agent, p: Pipe) {
    && s in ag.locals && ag.locals[s].hand == [] && Flat(ag.locals[s].toTcp.queue) == []
    && PushHand(ag, s) == [] && Payload(p.InFlight(), Some(s)) == [] && UpPath(op) == []
  }

  /** Nothing of `s` is on its way from the target to the operator. */
  ghost predicate DownstreamIdle(op: Operator, s: StreamId, out: Pipe, h: AgentHandler, ag: Agent) {
    && op.bridge.writing == [] && Payload(out.InFlight(), None) == [] && ChunkOf(h.hand, Some(s)) == []
    && Payload(ag.up.InFlight(), Some(s)) == [] && Unsent(ag, s) == []
  }

  lemma OnlyFirst(x: Bytes, rest: seq<Bytes>)
    requires |rest| == 6 && forall i :: 0 <= i < 6 ==> rest[i] == []
    ensures x + rest[0] + rest[1] + rest[2] + rest[3] + rest[4] + rest[5] == x
  {
  }

  lemma IdleUpstream(w: World, s: StreamId, a: AgentId)
    requires Reachable(w) && s in w.ops && w.ops[s].agent == Some(a) && HasAgent(w, a)
    requires s in w.agents[a].streams && UpstreamIdle(w.ops[s], s, w.agents[a], w.toAgent[a])
    ensures w.agents[a].locals[s].written == w.ops[s].bridge.read
  {
    UpstreamAccounting(w, s, a);
    NothingLostYet(w, s, a);
    OnlyFirst(w.agents[a].locals[s].written, [[], [], [], [], [], []]);
  }

  lemma IdleDownstream(w: World, s: StreamId, a: AgentId)
    requires Reachable(w) && s in w.ops && w.ops[s].agent == Some(a) && HasAgent(w, a) && s in w.toOp
    requires InSomeMap(w.sessions, s) && DownstreamIdle(w.ops[s], s, w.toOp[s], w.handlers[a], w.agents[a])
    ensures w.ops[s].bridge.written == ReadFrom(w.agents[a], s)
  {
    DownstreamAccounting(w, s, a);
    NothingLostYet(w, s, a);
    OnlyFirst(w.ops[s].bridge.written, [[], [], [], [], [], []]);
  }

  /** A live stream whose path is idle has delivered everything, both ways. */
  lemma IdleMeansDelivered(w: World, s: StreamId, a: AgentId)
    requires Reachable(w) && s in w.ops && w.ops[s].agent == Some(a) && HasAgent(w, a) && s in w.toOp
    ensures s in w.agents[a].streams && UpstreamIdle(w.ops[s], s, w.agents[a], w.toAgent[a]) ==>
              w.agents[a].locals[s].written == w.ops[s].bridge.read
    ensures InSomeMap(w.sessions, s) && DownstreamIdle(w.ops[s], s, w.toOp[s], w.handlers[a], w.agents[a]) ==>
              w.ops[s].bridge.written == ReadFrom(w.agents[a], s)
  {
    if s in w.agents[a].streams && UpstreamIdle(w.ops[s], s, w.agents[a], w.toAgent[a]) {
      IdleUpstream(w, s, a);
    }
    if InSomeMap(w.sessions, s) && DownstreamIdle(w.ops[s], s, w.toOp[s], w.handlers[a], w.agents[a]) {
      IdleDownstream(w, s, a);
    }
  }

  /** A stream some agent dialled a target for belongs to that agent. */
  lemma LocalIsLinked(w: World, s: StreamId, a: AgentId)
    requires Reachable(w) && HasAgent(w, a) && s in w.agents[a].locals
    ensures s in w.ops && s in w.toOp && w.ops[s].agent == Some(a)
  {
    ReachableInv(w);
    assert AgInv(w, a);
    assert LocalOk(w.agents[a], w.toAgent[a].delivered, s);
    OpensOfDelivered(w.toAgent[a], s);
    AskedStarted(w.ops, a, w.toAgent[a].Sent(), s);
    assert OpInv(w, s);
  }

  lemma OpensOfDelivered(p: Pipe, s: StreamId)
    requires s in Opens(p.delivered)
    ensures s in Opens(p.Sent())
  {
    OpensMember(p.delivered, s);
    var target :| OpenStream(s, target) in p.delivered;
    assert OpenStream(s, target) in p.Sent();
    OpensMember(p.Sent(), s);
  }

  /** Prefix safety, both ways: no gap, no reordering, no byte of another stream. */
  lemma PrefixSafety(w: World, s: StreamId, a: AgentId)
    requires Reachable(w) && HasAgent(w, a) && s in w.agents[a].locals
    ensures s in w.ops && w.ops[s].agent == Some(a)
    ensures w.agents[a].locals[s].written <= w.ops[s].bridge.read
    ensures w.ops[s].bridge.written <= w.agents[a].locals[s].read
  {
    LocalIsLinked(w, s, a);
    UpstreamAccounting(w, s, a);
    DownstreamAccounting(w, s, a);
  }

  /** A stream without a dialled target has written nothing to the operator's socket. */
  lemma NothingFromNowhere(w: World, s: StreamId)
    requires Reachable(w) && s in w.ops
    requires w.ops[s].agent.Some? && HasAgent(w, w.ops[s].agent.value) ==> s !in w.agents[w.ops[s].agent.value].locals
    ensures w.ops[s].bridge.written == []
  {
    ReachableInv(w);
    assert OpInv(w, s);
    if w.ops[s].agent.Some? {
      DownstreamAccounting(w, s, w.ops[s].agent.value);
    } else {
      PayloadConcat(w.toOp[s].delivered, w.toOp[s].InFlight(), None);
    }
  }

  /** Prefix safety across time: what was written by state `i` was read by state `j`, and stays. */
  lemma RunPrefixSafety(run: seq<World>, steps: seq<Step>, i: nat, j: nat, s: StreamId, a: AgentId)
    requires IsRun(run, steps) && i <= j < |run|
    requires HasAgent(run[i], a) && s in run[i].agents[a].locals
    ensures HasAgent(run[j], a) && s in run[j].agents[a].locals && s in run[i].ops && s in run[j].ops
    ensures var l, l' := run[i].agents[a].locals[s], run[j].agents[a].locals[s];
      l.written <= l'.written <= run[j].ops[s].bridge.read && l'.endpoint == l.endpoint
    ensures run[i].ops[s].bridge.written <= run[j].ops[s].bridge.written <= run[j].agents[a].locals[s].read
  {
    assert Reachable(run[i]) && Reachable(run[j]);
    RunForward(run, steps, i, j, a, s);
    LocalIsLinked(run[i], s, a);
    PrefixSafety(run[j], s, a);
  }

  /** No channel of any reachable state holds more than its capacity. */
  lemma ChannelsBounded(w: World)
    requires Reachable(w)
    ensures forall a :: a in w.toAgent ==> |w.toAgent[a].chan.queue| <= CAPACITY
    ensures forall s :: s in w.toOp ==> |w.toOp[s].chan.queue| <= CAPACITY
    ensures forall a :: a in w.agents ==> |w.agents[a].up.chan.queue| <= CAPACITY
    ensures forall a, s :: a in w.agents && s in w.agents[a].locals ==> |w.agents[a].locals[s].toTcp.queue| <= CAPACITY
  {
    ReachableInv(w);
    forall a | a in w.agents
      ensures |w.toAgent[a].chan.queue| <= CAPACITY && |w.agents[a].up.chan.queue| <= CAPACITY
      ensures forall s :: s in w.agents[a].locals ==> |w.agents[a].locals[s].toTcp.queue| <= CAPACITY
    {
      assert AgInv(w, a);
      forall s | s in w.agents[a].locals ensures |w.agents[a].locals[s].toTcp.queue| <= CAPACITY {
        assert LocalOk(w.agents[a], w.toAgent[a].delivered, s);
      }
    }
    forall s | s in w.toOp ensures |w.toOp[s].chan.queue| <= CAPACITY { assert OpInv(w, s); }
  }
}
