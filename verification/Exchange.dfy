/** A run that does what the relay is for: whatever an operator writes reaches the target, whatever the target
    answers reaches the operator, each end learns of the other's close, and nothing is left behind. */
module Exchange {
  import opened Wire
  import opened Pipes
  import opened AgentProcess
  import opened OperatorStream
  import opened RelayRules
  import opened RelaySystem
  import opened Delivery
  import opened LeakWitness

  /** The records of the one session, agent connection and operator stream of the run. */
  datatype Scene = Scene(session: Session, h: AgentHandler, ag: Agent, p: Pipe, op: Operator, out: Pipe)

  ghost predicate Shows(w: World, x: Scene) {
    && Reachable(w) && HasAgent(w, AGENT) && HasOp(w, STREAM) && w.now == 0
    && w.sessions == map[SESSION := x.session] && SESSION in w.births
    && w.handlers[AGENT] == x.h && w.agents[AGENT] == x.ag && w.toAgent[AGENT] == x.p
    && w.ops[STREAM] == x.op && w.toOp[STREAM] == x.out
  }

  /** Some run leads to these records. */
  ghost predicate Happens(x: Scene) {
    exists w :: Shows(w, x)
  }

  /* ---------- one step of the run ---------- */

  function AfterOwn(x: Scene, own: OwnStep): Scene
    requires OwnEnabled(Conn(x.h, x.ag, x.p), own)
  {
    var c := OwnNext(Conn(x.h, x.ag, x.p), own);
    x.(h := c.h, ag := c.ag, p := c.p)
  }

  lemma ByConnection(x: Scene, own: OwnStep)
    requires Happens(x) && OwnEnabled(Conn(x.h, x.ag, x.p), own)
    ensures Happens(AfterOwn(x, own))
  {
    var w :| Shows(w, x);
    var st := ByAgent(AGENT, Own(own));
    Extend(w, st);
    assert Shows(Next(w, st), AfterOwn(x, own));
  }

  function AfterLocal(x: Scene, step: OperatorStep): Scene
    requires OperatorEnabled(x.op, x.out, step)
  {
    x.(op := OperatorNext(x.op, STREAM, x.out, step), out := OutAfter(x.out, step))
  }

  lemma ByBridge(x: Scene, step: OperatorStep)
    requires Happens(x) && OperatorEnabled(x.op, x.out, step)
    ensures Happens(AfterLocal(x, step))
  {
    var w :| Shows(w, x);
    var st := ByOperator(STREAM, OperatorSide.Local(step));
    Extend(w, st);
    assert Shows(Next(w, st), AfterLocal(x, step));
  }

  lemma ByRegister(x: Scene)
    requires Happens(x) && x.h.pc.Joining? && x.h.pc.hello.AgentHello? && x.h.pc.hello.code == x.session.code
    requires MayJoin(x.session, 0, x.h.pc.hello.exposes)
    ensures Happens(x.(session := Joined(x.session, x.h.pc.hello.device),
                       h := x.h.(pc := Greeting, session := Some(SESSION))))
  {
    var w :| Shows(w, x);
    var st := ByAgent(AGENT, Register(Some(SESSION)));
    JoinExactly(x.session, 0, x.h.pc.hello.exposes);
    Extend(w, st);
    assert Shows(Next(w, st), x.(session := Joined(x.session, x.h.pc.hello.device),
                                 h := x.h.(pc := Greeting, session := Some(SESSION))));
  }

  lemma ByAttach(x: Scene)
    requires Happens(x) && x.h.pc.Attaching? && x.h.session == Some(SESSION)
    ensures Happens(x.(session := x.session.(agent := Some(AGENT)), h := x.h.(pc := Serving, attached := true),
                       p := x.p.Start()))
  {
    var w :| Shows(w, x);
    var st := ByAgent(AGENT, Attach);
    Extend(w, st);
    assert Shows(Next(w, st), x.(session := x.session.(agent := Some(AGENT)),
                                 h := x.h.(pc := Serving, attached := true), p := x.p.Start()));
  }

  lemma ByCheck(x: Scene)
    requires Happens(x) && x.op.pc.Checking? && x.op.session == SESSION && x.session.agent == Some(AGENT)
    requires 0 < x.session.expiresAt && Allows(x.session, x.op.target)
    ensures Happens(x.(op := x.op.(pc := Inserting, agent := Some(AGENT), checkedAt := 0)))
  {
    var w :| Shows(w, x);
    var st := ByOperator(STREAM, Check);
    OpenExactly(w.sessions, SESSION, x.op.target, 0);
    Extend(w, st);
    assert Shows(Next(w, st), x.(op := x.op.(pc := Inserting, agent := Some(AGENT), checkedAt := 0)));
  }

  lemma ByInsert(x: Scene)
    requires Happens(x) && x.op.pc.Inserting? && x.op.session == SESSION && x.op.agent == Some(AGENT)
          && !x.h.pc.Ended?
    ensures Happens(x.(session := x.session.(streams := x.session.streams[STREAM := STREAM]),
                       op := x.op.(pc := Opening, inserted := true, late := false)))
  {
    var w :| Shows(w, x);
    var st := ByOperator(STREAM, Insert);
    Extend(w, st);
    assert Shows(Next(w, st), x.(session := x.session.(streams := x.session.streams[STREAM := STREAM]),
                                 op := x.op.(pc := Opening, inserted := true, late := false)));
  }

  lemma BySendOpen(x: Scene)
    requires Happens(x) && x.op.pc.Opening? && x.op.agent == Some(AGENT) && x.p.chan.CanSend()
    ensures Happens(x.(op := x.op.(pc := Relaying, started := true), p := x.p.Send(OpenStream(STREAM, x.op.target)),
                       out := x.out.Start()))
  {
    var w :| Shows(w, x);
    var st := ByOperator(STREAM, SendOpen);
    Extend(w, st);
    assert Shows(Next(w, st), x.(op := x.op.(pc := Relaying, started := true),
                                 p := x.p.Send(OpenStream(STREAM, x.op.target)), out := x.out.Start()));
  }

  lemma ByForward(x: Scene)
    requires Happens(x) && x.op.pc.Forwarding? && x.op.fwd.Some? && x.op.agent == Some(AGENT) && x.p.chan.CanSend()
    ensures Happens(x.(op := x.op.(pc := if x.op.pc.last then Aborting else Relaying, fwd := None),
                       p := x.p.Send(x.op.fwd.value)))
  {
    var w :| Shows(w, x);
    var st := ByOperator(STREAM, Forward);
    Extend(w, st);
    assert Shows(Next(w, st), x.(op := x.op.(pc := if x.op.pc.last then Aborting else Relaying, fwd := None),
                                 p := x.p.Send(x.op.fwd.value)));
  }

  lemma ByLookUp(x: Scene)
    requires Happens(x) && x.h.pc.LookingUp? && x.h.hand.Some? && StreamOf(x.h.hand.value) == Some(STREAM)
    requires STREAM in x.session.streams && x.session.streams[STREAM] == STREAM
    ensures Happens(x.(h := x.h.(pc := Delivering(STREAM))))
  {
    var w :| Shows(w, x);
    var st := ByAgent(AGENT, LookUp(Some(SESSION)));
    Extend(w, st);
    assert Shows(Next(w, st), x.(h := x.h.(pc := Delivering(STREAM))));
  }

  lemma ByDeliver(x: Scene)
    requires Happens(x) && x.h.pc == Delivering(STREAM) && HoldsFrame(x.h) && x.out.chan.CanSend()
    ensures Happens(x.(h := AfterRouting(x.h), out := x.out.Send(x.h.hand.value)))
  {
    var w :| Shows(w, x);
    var st := ByAgent(AGENT, Deliver);
    Extend(w, st);
    assert Shows(Next(w, st), x.(h := AfterRouting(x.h), out := x.out.Send(x.h.hand.value)));
  }

  lemma ByDrop(x: Scene)
    requires Happens(x) && x.h.pc == Dropping(STREAM)
    ensures Happens(x.(session := x.session.(streams := x.session.streams - {STREAM}), h := x.h.(pc := Serving)))
  {
    var w :| Shows(w, x);
    var st := ByAgent(AGENT, DropStream);
    Extend(w, st);
    assert Shows(Next(w, st), x.(session := x.session.(streams := x.session.streams - {STREAM}),
                                 h := x.h.(pc := Serving)));
  }

  lemma ByTell(x: Scene)
    requires Happens(x) && x.op.pc.Notifying? && x.op.agent == Some(AGENT)
    ensures Happens(x.(op := x.op.(pc := Removing), p := x.p.TrySend(StreamClose(STREAM))))
  {
    var w :| Shows(w, x);
    var st := ByOperator(STREAM, TellAgentDone);
    Extend(w, st);
    assert Shows(Next(w, st), x.(op := x.op.(pc := Removing), p := x.p.TrySend(StreamClose(STREAM))));
  }

  lemma ByRemove(x: Scene)
    requires Happens(x) && x.op.pc.Removing?
    ensures Happens(x.(session := x.session.(streams := x.session.streams - {STREAM}), op := x.op.(pc := Gone)))
  {
    var w :| Shows(w, x);
    var st := ByOperator(STREAM, RemoveOwn);
    Extend(w, st);
    assert Shows(Next(w, st), x.(session := x.session.(streams := x.session.streams - {STREAM}),
                                 op := x.op.(pc := Gone)));
  }

  /* ---------- a message through each pipe ---------- */

  /** A running pipe with nothing in it. */
  function Idle(delivered: seq<WireMessage>): Pipe {
    Pipe(Channel([], true), true, None, [], delivered)
  }

  /** The same with one message on its websocket. */
  function Arrived(delivered: seq<WireMessage>, m: WireMessage): Pipe {
    Idle(delivered).(wire := [m])
  }

  lemma Travels(delivered: seq<WireMessage>, m: WireMessage)
    ensures var p := Idle(delivered).Send(m);
      CanMove(p, TakeMove) && CanMove(Moved(p, TakeMove), PutMove)
      && Moved(Moved(p, TakeMove), PutMove) == Arrived(delivered, m)
    ensures Arrived(delivered, m).CanReceive() && Arrived(delivered, m).Receive() == Idle(delivered + [m])
  {
  }

  lemma DownTravels(x: Scene, delivered: seq<WireMessage>, m: WireMessage)
    requires Happens(x) && x.p == Idle(delivered).Send(m)
    ensures Happens(x.(p := Arrived(delivered, m)))
  {
    Travels(delivered, m);
    ByConnection(x, DownMoves(TakeMove));
    ByConnection(AfterOwn(x, DownMoves(TakeMove)), DownMoves(PutMove));
  }

  lemma UpTravels(x: Scene, delivered: seq<WireMessage>, m: WireMessage)
    requires Happens(x) && x.ag.up == Idle(delivered).Send(m)
    ensures Happens(x.(ag := x.ag.(up := Arrived(delivered, m))))
  {
    Travels(delivered, m);
    ByConnection(x, Process(UpMove(TakeMove)));
    ByConnection(AfterOwn(x, Process(UpMove(TakeMove))), Process(UpMove(PutMove)));
  }

  lemma OutTravels(x: Scene, delivered: seq<WireMessage>, m: WireMessage)
    requires Happens(x) && x.out == Idle(delivered).Send(m)
    ensures Happens(x.(out := Arrived(delivered, m)))
  {
    Travels(delivered, m);
    ByBridge(x, OutMove(TakeMove));
    ByBridge(AfterLocal(x, OutMove(TakeMove)), OutMove(PutMove));
  }

  /* ---------- bytes through the whole relay ---------- */

  /** The stream is open from end to end, and nothing of it is on its way. */
  predicate Quiet(x: Scene) {
    && x.h == AgentHandler(Serving, Some(SESSION), true, None, [])
    && x.p == Idle(x.p.delivered) && x.ag.up == Idle(x.ag.up.delivered) && x.out == Idle(x.out.delivered)
    && x.op.pc.Relaying? && x.op.agent == Some(AGENT) && x.op.fwd.None? && x.op.up == []
    && x.op.bridge.alive && !x.op.bridge.eof && x.op.bridge.toSend.None? && x.op.bridge.writing == []
    && x.ag.pc.Looping? && STREAM in x.ag.streams && STREAM in x.ag.locals
    && var l := x.ag.locals[STREAM];
    && l.toTcp == Channel([], true) && l.writing && l.hand == [] && l.reader.Reading? && l.unsent == []
    && STREAM in x.session.streams && x.session.streams[STREAM] == STREAM
  }

  /** A message of the bridge reaches the agent's websocket. */
  lemma FrameArrives(x: Scene, m: WireMessage) returns (x': Scene)
    requires Happens(x) && x.op.up == [m] && x.op.pc.Relaying? && x.op.agent == Some(AGENT) && x.op.fwd.None?
    requires x.p == Idle(x.p.delivered) && (m.StreamData? || m.StreamClose?)
    ensures Happens(x')
    ensures var r := if m.StreamData? then StreamData(STREAM, m.bytes) else StreamClose(STREAM);
      x' == x.(op := x.op.(up := [], taken := x.op.taken + [m]), p := Arrived(x.p.delivered, r))
  {
    var r := if m.StreamData? then StreamData(STREAM, m.bytes) else StreamClose(STREAM);
    ByBridge(x, ReceiveOperatorFrame);
    var x1 := AfterLocal(x, ReceiveOperatorFrame);
    assert x1 == x.(op := x.op.(up := [], taken := x.op.taken + [m], fwd := Some(r), pc := Forwarding(false)));
    ByForward(x1);
    var x2 := x1.(op := x1.op.(pc := Relaying, fwd := None), p := x1.p.Send(r));
    DownTravels(x2, x.p.delivered, r);
    x' := x2.(p := Arrived(x.p.delivered, r));
  }

  /** A message of the agent reaches the operator's websocket. */
  lemma FrameReturns(x: Scene, m: WireMessage) returns (x': Scene)
    requires Happens(x) && x.ag.up == Idle(x.ag.up.delivered).Send(m) && x.out == Idle(x.out.delivered)
    requires x.h == AgentHandler(Serving, Some(SESSION), true, None, []) && StreamOf(m) == Some(STREAM)
          && (m.StreamData? || m.StreamClose?)
    requires STREAM in x.session.streams && x.session.streams[STREAM] == STREAM
    ensures Happens(x')
    ensures x' == x.(ag := x.ag.(up := Idle(x.ag.up.delivered + [m])), out := Arrived(x.out.delivered, m),
                     h := if m.StreamData? then x.h else x.h.(pc := Dropping(STREAM)))
  {
    UpTravels(x, x.ag.up.delivered, m);
    var x1 := x.(ag := x.ag.(up := Arrived(x.ag.up.delivered, m)));
    Travels(x.ag.up.delivered, m);
    ByConnection(x1, ReceiveAgentFrame);
    var x2 := AfterOwn(x1, ReceiveAgentFrame);
    assert x2 == x.(ag := x.ag.(up := Idle(x.ag.up.delivered + [m])), h := x.h.(pc := LookingUp, hand := Some(m)));
    ByLookUp(x2);
    var x3 := x2.(h := x2.h.(pc := Delivering(STREAM)));
    ByDeliver(x3);
    var x4 := x3.(h := AfterRouting(x3.h), out := x3.out.Send(m));
    OutTravels(x4, x.out.delivered, m);
    x' := x4.(out := Arrived(x.out.delivered, m));
  }

  /** From `x` to `x'` the operator wrote `sent` and the target `answered`, and each has the other's. */
  predicate Carried(x: Scene, x': Scene, sent: Bytes, answered: Bytes) {
    && x'.session == x.session && x'.op.target == x.op.target
    && x'.op.bridge == x.op.bridge.(read := x.op.bridge.read + sent, written := x.op.bridge.written + answered)
    && STREAM in x.ag.locals && STREAM in x'.ag.locals
    && var l := x.ag.locals[STREAM];
       x'.ag.locals[STREAM] == l.(written := l.written + sent, read := l.read + answered)
  }

  lemma CarriedTwice(x: Scene, y: Scene, z: Scene, sent: Bytes, answered: Bytes, sent': Bytes, answered': Bytes)
    requires Carried(x, y, sent, answered) && Carried(y, z, sent', answered')
    ensures Carried(x, z, sent + sent', answered + answered')
  {
    Associative(x.op.bridge.read, sent, sent');
    Associative(x.op.bridge.written, answered, answered');
    Associative(x.ag.locals[STREAM].written, sent, sent');
    Associative(x.ag.locals[STREAM].read, answered, answered');
  }

  lemma CarriedNothing(x: Scene)
    requires STREAM in x.ag.locals
    ensures Carried(x, x, [], [])
  {
    assert x.op.bridge.read + [] == x.op.bridge.read && x.op.bridge.written + [] == x.op.bridge.written;
    var l := x.ag.locals[STREAM];
    assert l.written + [] == l.written && l.read + [] == l.read;
  }

  /** The operator writes a chunk, and the target has it. */
  lemma OperatorWrites(x: Scene, chunk: Bytes) returns (x': Scene)
    requires Happens(x) && Quiet(x) && 0 < |chunk| <= OperatorStream.READ_BUFFER
    ensures Happens(x') && Quiet(x') && Carried(x, x', chunk, [])
  {
    CarriedNothing(x);
    var said, m := StreamData(BRIDGE_STREAM, chunk), StreamData(STREAM, chunk);
    ByBridge(x, BridgeRead(chunk));
    var x1 := AfterLocal(x, BridgeRead(chunk));
    ByBridge(x1, BridgeSend);
    var x2 := AfterLocal(x1, BridgeSend);
    assert [] + [said] == [said];
    var x3 := FrameArrives(x2, said);
    x' := ChunkWritten(x3, chunk);
  }

  /** A chunk on the agent's websocket is written to the target. */
  lemma ChunkWritten(x: Scene, chunk: Bytes) returns (x': Scene)
    requires Happens(x) && |chunk| > 0 && x.p == Arrived(x.p.delivered, StreamData(STREAM, chunk))
    requires x.ag.pc.Looping? && STREAM in x.ag.streams && STREAM in x.ag.locals
    requires x.ag.locals[STREAM].toTcp == Channel([], true) && x.ag.locals[STREAM].writing
          && x.ag.locals[STREAM].hand == []
    ensures var l := x.ag.locals[STREAM];
      x' == x.(p := Idle(x.p.delivered + [StreamData(STREAM, chunk)]),
               ag := x.ag.(locals := x.ag.locals[STREAM := l.(written := l.written + chunk)]))
    ensures Happens(x')
  {
    var m, l := StreamData(STREAM, chunk), x.ag.locals[STREAM];
    Travels(x.p.delivered, m);
    ByConnection(x, Process(ReceiveFrame));
    var x1 := AfterOwn(x, Process(ReceiveFrame));
    assert x1 == x.(p := Idle(x.p.delivered + [m]), ag := x.ag.(pc := Pushing(STREAM, chunk)));
    ByConnection(x1, Process(PushDone));
    var x2 := AfterOwn(x1, Process(PushDone));
    assert [] + [chunk] == [chunk];
    assert x2.ag == x.ag.(locals := x.ag.locals[STREAM := l.(toTcp := Channel([chunk], true))]);
    x' := QueueWritten(x2, l, chunk);
    assert x'.ag.locals == x.ag.locals[STREAM := l.(written := l.written + chunk)];
  }

  /** The writer task takes the chunk in its channel. */
  lemma TaskTakes(x: Scene, l: AgentProcess.Local, chunk: Bytes)
    requires Happens(x) && STREAM in x.ag.locals && x.ag.locals[STREAM] == l && l.writing && l.hand == []
    requires l.toTcp == Channel([chunk], true)
    ensures Happens(x.(ag := WithLocal(x.ag, STREAM, l.(hand := chunk, toTcp := Channel([], true)))))
  {
    ByConnection(x, Process(WriterTake(STREAM)));
    assert [chunk][1..] == [];
  }

  /** The writer task writes all it holds. */
  lemma TaskWrites(x: Scene, l: AgentProcess.Local)
    requires Happens(x) && STREAM in x.ag.locals && x.ag.locals[STREAM] == l && l.writing && |l.hand| > 0
    ensures Happens(x.(ag := WithLocal(x.ag, STREAM, l.(written := l.written + l.hand, hand := []))))
  {
    ByConnection(x, Process(WriterWrite(STREAM, |l.hand|)));
    assert l.hand[..|l.hand|] == l.hand && l.hand[|l.hand|..] == [];
  }

  /** A chunk in the local channel is written to the target. */
  lemma QueueWritten(x: Scene, l: AgentProcess.Local, chunk: Bytes) returns (x': Scene)
    requires Happens(x) && |chunk| > 0 && l.writing && l.hand == [] && l.toTcp == Channel([], true)
    requires STREAM in x.ag.locals && x.ag.locals[STREAM] == l.(toTcp := Channel([chunk], true))
    ensures Happens(x')
    ensures x' == x.(ag := x.ag.(locals := x.ag.locals[STREAM := l.(written := l.written + chunk)]))
  {
    TaskTakes(x, l.(toTcp := Channel([chunk], true)), chunk);
    var x1 := x.(ag := WithLocal(x.ag, STREAM, l.(hand := chunk)));
    TaskWrites(x1, l.(hand := chunk));
    x' := x1.(ag := WithLocal(x1.ag, STREAM, l.(written := l.written + chunk)));
    assert x'.ag.locals == x.ag.locals[STREAM := l.(written := l.written + chunk)];
  }

  /** The reader task takes a chunk. */
  lemma TaskReads(x: Scene, l: AgentProcess.Local, chunk: Bytes)
    requires Happens(x) && STREAM in x.ag.locals && x.ag.locals[STREAM] == l && l.reader.Reading?
    requires 0 < |chunk| <= AgentProcess.READ_BUFFER
    ensures Happens(x.(ag := WithLocal(x.ag, STREAM, l.(read := l.read + chunk, unsent := chunk, reader := Sending))))
  {
    ByConnection(x, Process(ReadChunk(STREAM, chunk)));
  }

  /** The reader task sends what it holds. */
  lemma TaskSends(x: Scene, l: AgentProcess.Local)
    requires Happens(x) && STREAM in x.ag.locals && x.ag.locals[STREAM] == l && ReaderHasMessage(l)
    requires x.ag.up.chan.CanSend()
    ensures Happens(x.(ag := WithLocal(x.ag, STREAM, AfterReaderSend(l, true))
                               .(up := x.ag.up.Send(ReaderMessage(STREAM, l)))))
  {
    ByConnection(x, Process(ReaderSend(STREAM)));
  }

  /** A chunk the target wrote is on its way to the relay. */
  lemma ChunkRead(x: Scene, l: AgentProcess.Local, chunk: Bytes) returns (x': Scene)
    requires Happens(x) && STREAM in x.ag.locals && x.ag.locals[STREAM] == l && l.reader.Reading? && l.unsent == []
    requires 0 < |chunk| <= AgentProcess.READ_BUFFER && x.ag.up == Idle(x.ag.up.delivered)
    ensures Happens(x')
    ensures x' == x.(ag := x.ag.(up := x.ag.up.Send(StreamData(STREAM, chunk)),
                                 locals := x.ag.locals[STREAM := l.(read := l.read + chunk)]))
  {
    var holding := l.(read := l.read + chunk, unsent := chunk, reader := Sending);
    TaskReads(x, l, chunk);
    var x1 := x.(ag := WithLocal(x.ag, STREAM, holding));
    TaskSends(x1, holding);
    x' := x1.(ag := WithLocal(x1.ag, STREAM, AfterReaderSend(holding, true))
                      .(up := x1.ag.up.Send(ReaderMessage(STREAM, holding))));
    assert AfterReaderSend(holding, true) == l.(read := l.read + chunk);
    assert x'.ag.locals == x.ag.locals[STREAM := l.(read := l.read + chunk)];
  }

  /** The target writes a chunk, and the operator has it. */
  lemma TargetWrites(x: Scene, chunk: Bytes) returns (x': Scene)
    requires Happens(x) && Quiet(x) && 0 < |chunk| <= AgentProcess.READ_BUFFER
    ensures Happens(x') && Quiet(x') && Carried(x, x', [], chunk)
  {
    CarriedNothing(x);
    var m := StreamData(STREAM, chunk);
    var x1 := ChunkRead(x, x.ag.locals[STREAM], chunk);
    var x2 := FrameReturns(x1.(ag := x1.ag.(up := Idle(x.ag.up.delivered).Send(m))), m);
    x' := ChunkReturned(x2, chunk);
  }

  /** A chunk on the operator's websocket is written to its socket. */
  lemma ChunkReturned(x: Scene, chunk: Bytes) returns (x': Scene)
    requires Happens(x) && |chunk| > 0 && x.out == Arrived(x.out.delivered, StreamData(STREAM, chunk))
    requires x.op.bridge.alive && x.op.bridge.writing == []
    ensures Happens(x')
    ensures x' == x.(out := Idle(x.out.delivered + [StreamData(STREAM, chunk)]),
                     op := x.op.(bridge := x.op.bridge.(written := x.op.bridge.written + chunk)))
  {
    Travels(x.out.delivered, StreamData(STREAM, chunk));
    ByBridge(x, BridgeReceive);
    var x1 := AfterLocal(x, BridgeReceive);
    ByBridge(x1, BridgeWrite(|chunk|));
    x' := AfterLocal(x1, BridgeWrite(|chunk|));
    assert chunk[..|chunk|] == chunk && chunk[|chunk|..] == [];
  }

  lemma SentInTwo(x: Scene, y: Scene, z: Scene, all: Bytes, n: nat)
    requires n <= |all| && Carried(x, y, all[..n], []) && Carried(y, z, all[n..], [])
    ensures Carried(x, z, all, [])
  {
    CarriedTwice(x, y, z, all[..n], [], all[n..], []);
    assert all[..n] + all[n..] == all;
  }

  lemma AnsweredInTwo(x: Scene, y: Scene, z: Scene, all: Bytes, n: nat)
    requires n <= |all| && Carried(x, y, [], all[..n]) && Carried(y, z, [], all[n..])
    ensures Carried(x, z, [], all)
  {
    CarriedTwice(x, y, z, [], all[..n], [], all[n..]);
    assert all[..n] + all[n..] == all;
  }

  /** Any text at all is written chunk by chunk. */
  lemma {:induction false} OperatorWritesAll(x: Scene, all: Bytes) returns (x': Scene)
    requires Happens(x) && Quiet(x)
    ensures Happens(x') && Quiet(x') && Carried(x, x', all, [])
    decreases |all|
  {
    if all == [] {
      x' := x;
      CarriedNothing(x);
    } else {
      var n := if |all| < OperatorStream.READ_BUFFER then |all| else OperatorStream.READ_BUFFER;
      var x1 := OperatorWrites(x, all[..n]);
      x' := OperatorWritesAll(x1, all[n..]);
      SentInTwo(x, x1, x', all, n);
    }
  }

  lemma {:induction false} TargetWritesAll(x: Scene, all: Bytes) returns (x': Scene)
    requires Happens(x) && Quiet(x)
    ensures Happens(x') && Quiet(x') && Carried(x, x', [], all)
    decreases |all|
  {
    if all == [] {
      x' := x;
      CarriedNothing(x);
    } else {
      var n := if |all| < AgentProcess.READ_BUFFER then |all| else AgentProcess.READ_BUFFER;
      var x1 := TargetWrites(x, all[..n]);
      x' := TargetWritesAll(x1, all[n..]);
      AnsweredInTwo(x, x1, x', all, n);
    }
  }

  /* ---------- joining and opening ---------- */

  /** The session exists, and the agent and the operator have connected. */
  function Connected(allowed: seq<TunnelSpec>, t: TunnelSpec): Scene {
    Scene(NewSession(CODE, None, allowed, 60, 0), AgentHandler(AwaitingHello, None, false, None, []),
          NewAgent(CODE, None, [t]), NewPipe(), NewOperator(SESSION, t.name), NewPipe())
  }

  lemma Begins(allowed: seq<TunnelSpec>, t: TunnelSpec)
    requires |allowed| > 0
    ensures Happens(Connected(allowed, t))
  {
    StartIsReachable();
    var create := CreateSession(SESSION, CODE, None, allowed, 60);
    Extend(START, create);
    var w1 := Next(START, create);
    var start := StartAgent(AGENT, CODE, None, [t]);
    Extend(w1, start);
    var w2 := Next(w1, start);
    var arrive := OpenOperator(SESSION, t.name);
    Extend(w2, arrive);
    assert Shows(Next(w2, arrive), Connected(allowed, t));
  }

  /** The agent's hello reaches the relay. */
  lemma SaysHello(allowed: seq<TunnelSpec>, t: TunnelSpec, hello: WireMessage) returns (x: Scene)
    requires |allowed| > 0 && hello == Hello(NewAgent(CODE, None, [t]))
    ensures Happens(x)
    ensures x == Connected(allowed, t).(h := AgentHandler(Joining(hello), None, false, None, []),
                                        ag := NewAgent(CODE, None, [t]).(up := Idle([hello])))
  {
    var x0 := Connected(allowed, t);
    Begins(allowed, t);
    assert x0.ag.up == Idle([]).Send(hello);
    UpTravels(x0, [], hello);
    var x1 := x0.(ag := x0.ag.(up := Arrived([], hello)));
    Travels([], hello);
    ByConnection(x1, ReceiveHello);
    x := x1.(ag := x1.ag.(up := Idle([hello])), h := x1.h.(pc := Joining(hello)));
    assert AfterOwn(x1, ReceiveHello) == x;
  }

  /** It is granted. */
  lemma Registers(x: Scene, allowed: seq<TunnelSpec>, t: TunnelSpec, hello: WireMessage) returns (x': Scene)
    requires Happens(x) && x.session == NewSession(CODE, None, allowed, 60, 0) && x.h.pc == Joining(hello)
    requires FindTunnel(allowed, t.name) == Some(t) && hello == Hello(NewAgent(CODE, None, [t]))
    ensures Happens(x')
    ensures x' == x.(session := Session(CODE, None, allowed, 60, 60, true, None, map[]),
                     h := x.h.(pc := Greeting, session := Some(SESSION)))
  {
    ByRegister(x);
    x' := x.(session := Joined(x.session, None), h := x.h.(pc := Greeting, session := Some(SESSION)));
  }

  /** It is greeted and attached, and has read the greeting. */
  lemma Attaches(x: Scene) returns (x': Scene)
    requires Happens(x) && x.h == AgentHandler(Greeting, Some(SESSION), false, None, []) && x.p == NewPipe()
    requires x.ag.pc.Looping?
    ensures Happens(x')
    ensures x' == x.(session := x.session.(agent := Some(AGENT)),
                     h := AgentHandler(Serving, Some(SESSION), true, None, []), p := Idle([AgentReady(SESSION)]))
  {
    var ready := AgentReady(SESSION);
    ByConnection(x, Greet);
    var x1 := x.(p := x.p.Send(ready), h := x.h.(pc := Attaching));
    assert AfterOwn(x, Greet) == x1;
    ByAttach(x1);
    var x2 := x1.(session := x1.session.(agent := Some(AGENT)), h := x1.h.(pc := Serving, attached := true),
                  p := x1.p.Start());
    assert x2.p == Idle([]).Send(ready);
    DownTravels(x2, [], ready);
    x' := ReadyRead(x2.(p := Arrived([], ready)), ready);
  }

  lemma ReadyRead(x: Scene, ready: WireMessage) returns (x': Scene)
    requires Happens(x) && x.ag.pc.Looping? && ready.AgentReady? && x.p == Arrived([], ready)
    ensures Happens(x') && x' == x.(p := Idle([ready]))
  {
    Travels([], ready);
    ByConnection(x, Process(ReceiveFrame));
    x' := AfterOwn(x, Process(ReceiveFrame));
  }

  /** The operator's stream is admitted, and the agent asked to open it. */
  lemma Opens(x: Scene, t: TunnelSpec) returns (x': Scene)
    requires Happens(x) && x.op == NewOperator(SESSION, t.name) && x.out == NewPipe() && !x.h.pc.Ended?
    requires x.session.agent == Some(AGENT) && 0 < x.session.expiresAt && Allows(x.session, t.name)
    requires x.p == Idle(x.p.delivered)
    ensures Happens(x')
    ensures x' == x.(session := x.session.(streams := x.session.streams[STREAM := STREAM]),
                     op := Operator(SESSION, t.name, Relaying, Some(AGENT), 0, true, false, true, None, [], [],
                                    NewOperator(SESSION, t.name).bridge),
                     p := Arrived(x.p.delivered, OpenStream(STREAM, t.name)), out := Idle([]))
  {
    ByCheck(x);
    var x1 := x.(op := x.op.(pc := Inserting, agent := Some(AGENT), checkedAt := 0));
    ByInsert(x1);
    var x2 := x1.(session := x1.session.(streams := x1.session.streams[STREAM := STREAM]),
                  op := x1.op.(pc := Opening, inserted := true, late := false));
    BySendOpen(x2);
    var x3 := x2.(op := x2.op.(pc := Relaying, started := true), p := x2.p.Send(OpenStream(STREAM, x2.op.target)),
                  out := x2.out.Start());
    DownTravels(x3, x.p.delivered, OpenStream(STREAM, t.name));
    x' := x3.(p := Arrived(x.p.delivered, OpenStream(STREAM, t.name)));
  }

  /** The agent dials the target the tunnel names. */
  lemma Dials(x: Scene, t: TunnelSpec) returns (x': Scene)
    requires Happens(x) && x.ag.pc.Looping? && x.ag.exposes == [t]
    requires x.p == Arrived(x.p.delivered, OpenStream(STREAM, t.name))
    ensures Happens(x')
    ensures x' == x.(p := Idle(x.p.delivered + [OpenStream(STREAM, t.name)]),
                     ag := x.ag.(streams := x.ag.streams + {STREAM},
                                 locals := x.ag.locals[STREAM := NewLocal(t.target)]))
  {
    var m := OpenStream(STREAM, t.name);
    OneTunnel(t);
    Travels(x.p.delivered, m);
    ByConnection(x, Process(ReceiveFrame));
    var x1 := x.(p := Idle(x.p.delivered + [m]), ag := x.ag.(pc := Dialing(STREAM, t.name, t.target)));
    assert AfterOwn(x, Process(ReceiveFrame)) == x1;
    ByConnection(x1, Process(DialOk));
    x' := AfterOwn(x1, Process(DialOk));
  }

  lemma OneTunnel(t: TunnelSpec)
    ensures ExposeMap([t]) == map[t.name := t.target]
  {
    assert [t][..0] == [];
  }

  /** From nothing to a stream that is open from end to end. */
  lemma Establishes(allowed: seq<TunnelSpec>, t: TunnelSpec) returns (x: Scene)
    requires FindTunnel(allowed, t.name) == Some(t)
    ensures Happens(x) && Quiet(x) && x.op.bridge == NewOperator(SESSION, t.name).bridge
    ensures x.ag.locals[STREAM] == NewLocal(t.target) && x.session.streams == map[STREAM := STREAM]
  {
    var hello := Hello(NewAgent(CODE, None, [t]));
    FindTunnelFirst(allowed, t.name);
    var x1 := SaysHello(allowed, t, hello);
    var x2 := Registers(x1, allowed, t, hello);
    var x3 := Attaches(x2);
    var x4 := Opens(x3, t);
    x := Dials(x4, t);
  }

  /* ---------- both ends close ---------- */

  /** The operator's socket ends, and the agent forgets the stream. */
  lemma OperatorCloses(x: Scene) returns (x': Scene)
    requires Happens(x) && Quiet(x)
    ensures Happens(x')
    ensures x'.ag == x.ag.(streams := x.ag.streams - {STREAM}) && x'.session == x.session && x'.h == x.h
    ensures x'.out == x.out && x'.op == x.op.(bridge := x.op.bridge.(eof := true), taken := x'.op.taken)
    ensures x'.p == Idle(x'.p.delivered)
  {
    var said, m := StreamClose(BRIDGE_STREAM), StreamClose(STREAM);
    ByBridge(x, BridgeEof);
    var x1 := x.(op := x.op.(bridge := x.op.bridge.(eof := true, toSend := Some(said))));
    assert AfterLocal(x, BridgeEof) == x1;
    ByBridge(x1, BridgeSend);
    assert [] + [said] == [said];
    var x2 := x1.(op := x1.op.(up := [said], bridge := x1.op.bridge.(toSend := None)));
    assert AfterLocal(x1, BridgeSend) == x2;
    var x3 := FrameArrives(x2, said);
    x' := CloseRead(x3, m);
  }

  lemma CloseRead(x: Scene, m: WireMessage) returns (x': Scene)
    requires Happens(x) && x.ag.pc.Looping? && m == StreamClose(STREAM) && x.p == Arrived(x.p.delivered, m)
    ensures Happens(x')
    ensures x' == x.(p := Idle(x.p.delivered + [m]), ag := x.ag.(streams := x.ag.streams - {STREAM}))
  {
    Travels(x.p.delivered, m);
    ByConnection(x, Process(ReceiveFrame));
    x' := AfterOwn(x, Process(ReceiveFrame));
  }

  /** The target ends, its reader task tells the relay, and the stream leaves its map. */
  lemma TargetCloses(x: Scene, l: AgentProcess.Local) returns (x': Scene)
    requires Happens(x) && STREAM in x.ag.locals && x.ag.locals[STREAM] == l && l.reader.Reading?
    requires x.ag.up == Idle(x.ag.up.delivered) && x.out == Idle(x.out.delivered)
    requires x.h == AgentHandler(Serving, Some(SESSION), true, None, [])
    requires STREAM in x.session.streams && x.session.streams[STREAM] == STREAM
    ensures Happens(x') && x'.session == x.session.(streams := x.session.streams - {STREAM})
    ensures x'.out == Arrived(x.out.delivered, StreamClose(STREAM)) && x'.op == x.op && x'.p == x.p && x'.h == x.h
    ensures x'.ag == x.ag.(up := x'.ag.up, locals := x.ag.locals[STREAM := l.(reader := Finished, end := AtEof)])
  {
    var m := StreamClose(STREAM);
    ByConnection(x, Process(ReadEof(STREAM)));
    var closing := l.(reader := Closing, end := AtEof);
    var x1 := x.(ag := WithLocal(x.ag, STREAM, closing));
    assert AfterOwn(x, Process(ReadEof(STREAM))) == x1;
    TaskSends(x1, closing);
    var x2 := x1.(ag := WithLocal(x1.ag, STREAM, AfterReaderSend(closing, true))
                          .(up := x1.ag.up.Send(ReaderMessage(STREAM, closing))));
    assert x2.ag.locals == x.ag.locals[STREAM := l.(reader := Finished, end := AtEof)];
    var x3 := FrameReturns(x2, m);
    ByDrop(x3);
    x' := x3.(session := x3.session.(streams := x3.session.streams - {STREAM}), h := x3.h.(pc := Serving));
  }

  /** The close ends the bridge; the operator's handler leaves its loop, tells the agent and removes its stream. */
  lemma HandlerFinishes(x: Scene) returns (x': Scene)
    requires Happens(x) && x.out == Arrived(x.out.delivered, StreamClose(STREAM)) && x.op.pc.Relaying?
    requires x.op.agent == Some(AGENT) && x.op.bridge.alive && x.op.bridge.writing == []
    ensures Happens(x') && x'.ag == x.ag
    ensures x'.session == x.session.(streams := x.session.streams - {STREAM})
    ensures x'.op == x.op.(pc := Gone, bridge := x.op.bridge.(alive := false))
  {
    Travels(x.out.delivered, StreamClose(STREAM));
    ByBridge(x, BridgeReceive);
    var x1 := x.(op := x.op.(bridge := x.op.bridge.(alive := false)), out := x.out.Receive());
    assert AfterLocal(x, BridgeReceive) == x1;
    x' := LeavesLoop(x1);
  }

  lemma LeavesLoop(x: Scene) returns (x': Scene)
    requires Happens(x) && x.op.pc.Relaying? && x.op.agent == Some(AGENT)
    ensures Happens(x') && x'.ag == x.ag
    ensures x'.session == x.session.(streams := x.session.streams - {STREAM}) && x'.op == x.op.(pc := Gone)
  {
    ByBridge(x, LeaveOperatorLoop);
    var x1 := x.(op := x.op.(pc := Aborting));
    assert AfterLocal(x, LeaveOperatorLoop) == x1;
    ByBridge(x1, AbortOutbound(false));
    var x2 := x1.(op := x1.op.(pc := Notifying), out := x1.out.Stop());
    assert AfterLocal(x1, AbortOutbound(false)) == x2;
    ByTell(x2);
    var x3 := x2.(op := x2.op.(pc := Removing), p := x2.p.TrySend(StreamClose(STREAM)));
    ByRemove(x3);
    x' := x3.(session := x3.session.(streams := x3.session.streams - {STREAM}), op := x3.op.(pc := Gone));
  }

  /** Everything the operator sent is at the target and the other way round, both ends have closed, and the
      relay and the agent have forgotten the stream. */
  ghost predicate Exchanged(w: World, t: TunnelSpec, sent: Bytes, answered: Bytes) {
    && Reachable(w) && HasAgent(w, AGENT) && STREAM in w.ops && STREAM in w.agents[AGENT].locals
    && var b, l := w.ops[STREAM].bridge, w.agents[AGENT].locals[STREAM];
    && b.read == sent && b.written == answered && b.eof && !b.alive
    && l.endpoint == t.target && l.written == sent && l.read == answered && l.reader.Finished?
    && w.ops[STREAM].pc.Gone? && STREAM !in w.agents[AGENT].streams
    && forall sid :: sid in w.sessions ==> STREAM !in w.sessions[sid].streams
  }

  /** The records when all has been said and both ends have still to close. */
  predicate Talked(x: Scene, t: TunnelSpec, sent: Bytes, answered: Bytes) {
    && Quiet(x) && x.session.streams == map[STREAM := STREAM]
    && x.op.bridge.read == sent && x.op.bridge.written == answered
    && var l := x.ag.locals[STREAM];
       l.endpoint == t.target && l.written == sent && l.read == answered
  }

  lemma CarriedFromStart(x: Scene, x': Scene, t: TunnelSpec, sent: Bytes, answered: Bytes)
    requires Quiet(x) && x.op.bridge == NewOperator(SESSION, t.name).bridge
    requires x.session.streams == map[STREAM := STREAM]
    requires x.ag.locals[STREAM] == NewLocal(t.target) && Quiet(x') && Carried(x, x', sent, answered)
    ensures Talked(x', t, sent, answered)
  {
    assert [] + sent == sent && [] + answered == answered;
  }

  lemma Converses(allowed: seq<TunnelSpec>, t: TunnelSpec, sent: Bytes, answered: Bytes) returns (x: Scene)
    requires FindTunnel(allowed, t.name) == Some(t)
    ensures Happens(x) && Talked(x, t, sent, answered)
  {
    var open := Establishes(allowed, t);
    var x1 := OperatorWritesAll(open, sent);
    x := TargetWritesAll(x1, answered);
    CarriedTwice(open, x1, x, sent, [], [], answered);
    assert sent + [] == sent && [] + answered == answered;
    CarriedFromStart(open, x, t, sent, answered);
  }

  lemma Closes(x: Scene, t: TunnelSpec, sent: Bytes, answered: Bytes) returns (x': Scene)
    requires Happens(x) && Talked(x, t, sent, answered)
    ensures Happens(x') && x'.session.streams == map[] && x'.op.pc.Gone?
    ensures x'.op.bridge == x.op.bridge.(eof := true, alive := false) && STREAM !in x'.ag.streams
    ensures STREAM in x'.ag.locals
    ensures x'.ag.locals[STREAM] == x.ag.locals[STREAM].(reader := Finished, end := AtEof)
  {
    var x1 := OperatorCloses(x);
    var x2 := TargetCloses(x1, x1.ag.locals[STREAM]);
    x' := HandlerFinishes(x2);
  }

  lemma ShowsExchange(w: World, x: Scene, t: TunnelSpec, sent: Bytes, answered: Bytes)
    requires Shows(w, x) && x.session.streams == map[] && x.op.pc.Gone?
    requires x.op.bridge.read == sent && x.op.bridge.written == answered && x.op.bridge.eof && !x.op.bridge.alive
    requires STREAM !in x.ag.streams && STREAM in x.ag.locals
    requires var l := x.ag.locals[STREAM];
      l.endpoint == t.target && l.written == sent && l.read == answered && l.reader.Finished?
    ensures Exchanged(w, t, sent, answered)
  {
  }

  /** Whatever tunnels a session allows, whichever of them an agent serves, and whatever the operator and the
      target say, some run carries all of it both ways, closes both ends, and leaves nothing behind. */
  lemma ExchangeHappens(allowed: seq<TunnelSpec>, t: TunnelSpec, sent: Bytes, answered: Bytes)
    requires FindTunnel(allowed, t.name) == Some(t)
    ensures exists w :: Exchanged(w, t, sent, answered)
  {
    var talked := Converses(allowed, t, sent, answered);
    var closed := Closes(talked, t, sent, answered);
    var w :| Shows(w, closed);
    ShowsExchange(w, closed, t, sent, answered);
  }
}
