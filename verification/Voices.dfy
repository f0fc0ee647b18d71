/** What an agent owes the relay: an answer to every request to open a stream, and for every target it
    dialled all that was read, the error if reading failed, and a close. */
module Voices {
  import opened Wire
  import opened Pipes
  import opened AgentProcess
  import opened OperatorStream
  import opened RelaySystem
  import opened RelayInvariant
  import opened Invariance
  import opened Evolution
  import opened Delivery
  import opened Grammar
  import opened StreamTasks
  import opened Frames
  import Forwarding

  /* ---------- one agent ---------- */

  predicate SaidError(log: seq<WireMessage>, s: StreamId) {
    exists m :: m in log && m.StreamError? && m.stream == s
  }

  /** A requested stream is dialled, being dialled, or refused with an error, unless the loop was left. */
  predicate Answered(ag: Agent, s: StreamId) {
    || s in ag.locals
    || (ag.pc.Dialing? && ag.pc.stream == s)
    || (ag.pc.Replying? && ag.pc.reply.StreamError? && ag.pc.reply.stream == s)
    || SaidError(ag.up.Sent(), s)
    || ag.pc.Exited?
  }

  /** What was said of the stream when reading from its target ended: data, then the error if there was one. */
  predicate EndSaid(word: seq<WireMessage>, s: StreamId, end: ReadEnd) {
    match end
    case Reads => false
    case AtEof => AllData(word)
    case Broken(text) => |word| > 0 && word[|word| - 1] == StreamError(s, text) && AllData(word[..|word| - 1])
  }

  /** `word` is what the shared channel, `open` or not, accepted about the stream of the local `l`. */
  predicate ReaderSaid(l: Local, s: StreamId, word: seq<WireMessage>, open: bool) {
    && (open && !l.reader.Sending? ==> l.unsent == [])
    && match l.reader
       case Reading => l.end.Reads? && AllData(word)
       case Sending => l.end.Reads? && AllData(word)
       case Failing(text) => l.end == Broken(text) && AllData(word)
       case Closing => open ==> EndSaid(word, s, l.end)
       case Finished =>
         open ==> |word| > 0 && word[|word| - 1] == StreamClose(s) && EndSaid(word[..|word| - 1], s, l.end)
  }

  ghost predicate VoiceOk(ag: Agent, got: seq<WireMessage>, s: StreamId) {
    && (s in Opens(got) ==> Answered(ag, s))
    && (s in ag.locals ==> ReaderSaid(ag.locals[s], s, OnStream(ag.up.Sent(), s), ag.up.chan.open))
  }

  predicate SameReader(l: Local, l': Local) {
    l'.reader == l.reader && l'.end == l.end && l'.unsent == l.unsent
  }

  /** Nothing the voice depends on moves, but for the channel closing. */
  lemma SameVoice(ag: Agent, ag': Agent, got: seq<WireMessage>, s: StreamId)
    requires VoiceOk(ag, got, s) && ag'.up.Sent() == ag.up.Sent() && (!ag.up.chan.open ==> !ag'.up.chan.open)
    requires ag'.pc == ag.pc || ag'.pc.Exited? || (ag.pc.Pushing? && ag'.pc.Looping?)
             || (ag.pc.Dialing? && ag'.pc.Replying? && ag'.pc.reply.StreamError? && ag'.pc.reply.stream == ag.pc.stream)
    requires s in ag'.locals <==> s in ag.locals
    requires s in ag.locals ==> SameReader(ag.locals[s], ag'.locals[s])
    ensures VoiceOk(ag', got, s)
  {
  }

  lemma LeaveVoice(ag: Agent, got: seq<WireMessage>, s: StreamId)
    requires VoiceOk(ag, got, s)
    ensures VoiceOk(Leave(ag), got, s)
  {
    SameVoice(ag, Leave(ag), got, s);
  }

  /** A frame was received: a new request is dialled or refused. */
  lemma ReceiveVoice(ag: Agent, got: seq<WireMessage>, m: WireMessage, s: StreamId)
    requires VoiceOk(ag, got, s) && ag.pc.Looping?
    ensures VoiceOk(OnFrame(ag, m), got + [m], s)
  {
    OpensAppend(got, m);
    OnFrameShape(ag, m);
  }

  lemma SentUp(ag: Agent, ag': Agent, m: WireMessage, s: StreamId)
    requires ag.up.chan.CanSend() && ag'.up == ag.up.Send(m)
    ensures ag'.up.Sent() == ag.up.Sent() + [m] && ag'.up.chan.open == ag.up.chan.open
    ensures OnStream(ag'.up.Sent(), s) == OnStream(ag.up.Sent(), s) + Held(Some(m), s)
    ensures SaidError(ag.up.Sent(), s) ==> SaidError(ag'.up.Sent(), s)
  {
    SendAppends(ag.up, m);
    OnStreamAppend(ag.up.Sent(), m, s);
    if SaidError(ag.up.Sent(), s) {
      var e :| e in ag.up.Sent() && e.StreamError? && e.stream == s;
      assert e in ag'.up.Sent();
    }
  }

  /** The pending refusal was accepted. */
  lemma ReplyVoice(ag: Agent, got: seq<WireMessage>, s: StreamId)
    requires VoiceOk(ag, got, s) && PcOk(ag, got) && ag.pc.Replying? && ag.up.chan.CanSend()
    ensures VoiceOk(ag.(pc := Looping, up := ag.up.Send(ag.pc.reply)), got, s)
  {
    var m := ag.pc.reply;
    var ag' := ag.(pc := Looping, up := ag.up.Send(m));
    SentUp(ag, ag', m, s);
    assert OnStream(ag.up.Sent(), s) + [] == OnStream(ag.up.Sent(), s);
    assert m in ag'.up.Sent();
  }

  /** The target answered: nothing of the stream but data can have been said. */
  lemma DialVoice(ag: Agent, got: seq<WireMessage>, s: StreamId, ag': Agent)
    requires VoiceOk(ag, got, s) && PcOk(ag, got) && ag.pc.Dialing?
    requires ag' == ag.(pc := Looping, streams := ag.streams + {ag.pc.stream},
                        locals := ag.locals[ag.pc.stream := NewLocal(ag.pc.endpoint)])
    ensures VoiceOk(ag', got, s)
  {
    UpPhaseMeaning(ag.up.Sent(), s);
  }

  lemma ReaderGrows(l: Local, s: StreamId, word: seq<WireMessage>)
    requires ReaderHasMessage(l) && ReaderSaid(l, s, word, true)
    ensures ReaderSaid(AfterReaderSend(l, true), s, word + [ReaderMessage(s, l)], true)
  {
    WordGrows(word, ReaderMessage(s, l));
    assert (word + [ReaderMessage(s, l)])[..|word|] == word;
  }

  /** The reader's message was accepted. */
  lemma ReaderVoice(ag: Agent, got: seq<WireMessage>, r: StreamId, s: StreamId, ag': Agent)
    requires VoiceOk(ag, got, s) && r in ag.locals && ReaderHasMessage(ag.locals[r]) && ag.up.chan.CanSend()
    requires ag'.up == ag.up.Send(ReaderMessage(r, ag.locals[r]))
    requires ag' == WithLocal(ag, r, AfterReaderSend(ag.locals[r], true)).(up := ag'.up)
    ensures VoiceOk(ag', got, s)
  {
    var m := ReaderMessage(r, ag.locals[r]);
    SentUp(ag, ag', m, s);
    assert OnStream(ag.up.Sent(), s) + [] == OnStream(ag.up.Sent(), s);
    if r == s {
      ReaderGrows(ag.locals[s], s, OnStream(ag.up.Sent(), s));
    }
  }

  /** The reader takes a step of its own. */
  lemma TaskVoice(ag: Agent, down: Pipe, st: AgentStep, s: StreamId)
    requires VoiceOk(ag, down.delivered, s) && AgentEnabled(ag, down, st)
    requires st.ReadChunk? || st.ReadEof? || st.ReadFailed? || st.ReaderSendLost?
             || st.WriterTake? || st.WriterWrite? || st.WriterStop?
    ensures VoiceOk(AgentNext(ag, down, st), down.delivered, s)
  {
  }

  lemma StepVoice(ag: Agent, down: Pipe, st: AgentStep, s: StreamId)
    requires VoiceOk(ag, down.delivered, s) && PcOk(ag, down.delivered) && AgentEnabled(ag, down, st)
    ensures VoiceOk(AgentNext(ag, down, st), DownAfter(down, st).delivered, s)
  {
    var ag' := AgentNext(ag, down, st);
    match st {
      case ReceiveFrame => ReceiveVoice(ag, down.delivered, down.wire[0], s);
      case ReplySent => ReplyVoice(ag, down.delivered, s);
      case ReplyLost => LeaveVoice(ag, down.delivered, s);
      case PushLost => LeaveVoice(ag, down.delivered, s);
      case LeaveLoop => LeaveVoice(ag, down.delivered, s);
      case DialOk => DialVoice(ag, down.delivered, s, ag');
      case DialFailed(_) => SameVoice(ag, ag', down.delivered, s);
      case PushDone => SameVoice(ag, ag', down.delivered, s);
      case UpMove(v) =>
        MoveKeepsSent(ag.up, v);
        SameVoice(ag, ag', down.delivered, s);
      case ReaderSend(r) => ReaderVoice(ag, down.delivered, r, s, ag');
      case _ => TaskVoice(ag, down, st, s);
    }
  }

  /* ---------- all agents ---------- */

  ghost predicate VoiceAt(w: World, a: AgentId, s: StreamId) {
    HasAgent(w, a) ==> VoiceOk(w.agents[a], w.toAgent[a].delivered, s)
  }

  /** The agent, and what it has received, are as they were. */
  ghost predicate Unheard(w: World, w': World, a: AgentId) {
    HasAgent(w, a) ==>
      HasAgent(w', a) && w'.agents[a] == w.agents[a] && w'.toAgent[a].delivered == w.toAgent[a].delivered
  }

  lemma OwnVoice(w: World, w': World, a: AgentId, own: OwnStep, c: Conn, s: StreamId)
    requires AgInv(w, a) && OwnEnabled(ConnOf(w, a), own) && c == OwnNext(ConnOf(w, a), own) && w' == WithConn(w, a, c)
    requires VoiceAt(w, a, s)
    ensures VoiceAt(w', a, s)
  {
    var ag, p := w.agents[a], w.toAgent[a];
    match own {
      case Process(step) => StepVoice(ag, p, step, s);
      case DownMoves(v) => MoveKeepsSent(p, v);
      case ReceiveHello => ReceiveKeepsSent(ag.up);
      case ReceiveAgentFrame => ReceiveKeepsSent(ag.up);
      case _ =>
    }
  }

  lemma RegisterUnheard(w: World, w': World, b: AgentId, found: Option<SessionId>, hello: WireMessage, a: AgentId)
    requires HasAgent(w, b) && hello.AgentHello?
          && (found.Some? ==> found.value in w.sessions && found.value in w.births)
    requires w' == RegisterNext(w, b, hello, found)
    ensures Unheard(w, w', a)
  {
  }

  lemma AttachUnheard(w: World, w': World, b: AgentId, sid: SessionId, a: AgentId)
    requires HasAgent(w, b) && w.handlers[b].pc.Attaching? && w.handlers[b].session == Some(sid)
    requires w' == AttachNext(w, b, sid)
    ensures Unheard(w, w', a)
  {
    AttachEffect(w, w', b, sid);
    AttachHandler(w, w', b, sid);
    var p := Forwarding.AttachPipe(w, w', b, sid);
  }

  lemma LookUpUnheard(w: World, w': World, b: AgentId, found: Option<SessionId>, a: AgentId)
    requires HasAgent(w, b) && AgentSideEnabled(w, b, LookUp(found)) && w' == LookUpNext(w, b, found)
    ensures Unheard(w, w', a)
  {
  }

  lemma SideUnheard(w: World, w': World, b: AgentId, side: AgentSide, a: AgentId)
    requires HasAgent(w, b) && AgentSideEnabled(w, b, side) && w' == AgentSideNext(w, b, side) && (side.Own? ==> a != b)
    ensures Unheard(w, w', a)
  {
    match side {
      case Own(_) =>
      case Register(found) => RegisterUnheard(w, w', b, found, w.handlers[b].pc.hello, a);
      case Attach => AttachUnheard(w, w', b, w.handlers[b].session.value, a);
      case LookUp(found) => LookUpUnheard(w, w', b, found, a);
      case Deliver =>
      case DeliverLost =>
      case DropStream =>
      case ClearAgent =>
    }
  }

  lemma SendUnheard(w: World, w': World, r: StreamId, side: OperatorSide, a: AgentId)
    requires HasOp(w, r) && OperatorSideEnabled(w, r, side) && w' == OperatorSideNext(w, r, side) && IsSend(side)
    ensures Unheard(w, w', a)
  {
    match side {
      case SendOpen =>
      case Forward =>
      case TellAgentDone =>
    }
  }

  lemma OperatorUnheard(w: World, w': World, r: StreamId, side: OperatorSide, a: AgentId)
    requires HasOp(w, r) && HandlerPcOk(w.ops[r], r) && OperatorSideEnabled(w, r, side)
          && w' == OperatorSideNext(w, r, side)
    ensures Unheard(w, w', a)
  {
    if IsSend(side) {
      SendUnheard(w, w', r, side, a);
    } else {
      Forwarding.StillPipes(w, w', r, side);
      OperatorHasEffect(w, w', r, side);
    }
  }

  lemma NewVoice(code: SessionCode, device: Option<string>, exposes: seq<TunnelSpec>, s: StreamId)
    ensures VoiceOk(NewAgent(code, device, exposes), [], s)
  {
  }

  lemma TableUnheard(w: World, w': World, st: Step, a: AgentId)
    requires Enabled(w, st) && IsTableStep(st) && w' == Next(w, st)
    ensures Unheard(w, w', a)
  {
  }

  predicate IsOwn(st: Step, a: AgentId) {
    st.ByAgent? && st.agent == a && st.side.Own?
  }

  lemma StepUnheard(w: World, w': World, st: Step, a: AgentId)
    requires Ready(w, st) && Enabled(w, st) && w' == Next(w, st) && !IsOwn(st, a)
    ensures Unheard(w, w', a)
  {
    match st {
      case ByAgent(b, side) => SideUnheard(w, w', b, side, a);
      case ByOperator(r, side) => OperatorUnheard(w, w', r, side, a);
      case _ => TableUnheard(w, w', st, a);
    }
  }

  lemma StartVoice(w: World, w': World, st: Step, a: AgentId, s: StreamId)
    requires Enabled(w, st) && st.StartAgent? && st.agent == a && w' == Next(w, st)
    ensures VoiceAt(w', a, s)
  {
    NewVoice(st.code, st.device, st.exposes, s);
  }

  /** Connections appear only by starting. */
  lemma WhoStarts(w: World, w': World, st: Step, a: AgentId)
    requires Ready(w, st) && Enabled(w, st) && w' == Next(w, st) && HasAgent(w', a) && !HasAgent(w, a) && Domains(w)
    ensures st.StartAgent? && st.agent == a
  {
    match st {
      case ByAgent(b, side) => SideHasEffect(w, w', b, side);
      case ByOperator(r, side) => OperatorHasEffect(w, w', r, side);
      case _ =>
    }
  }

  lemma VoiceStep(w: World, w': World, st: Step, a: AgentId, s: StreamId)
    requires Ready(w, st) && Enabled(w, st) && w' == Next(w, st) && Domains(w) && VoiceAt(w, a, s)
    ensures VoiceAt(w', a, s)
  {
    if !HasAgent(w, a) {
      if HasAgent(w', a) {
        WhoStarts(w, w', st, a);
        StartVoice(w, w', st, a, s);
      }
    } else if IsOwn(st, a) {
      OwnVoice(w, w', a, st.side.own, OwnNext(ConnOf(w, a), st.side.own), s);
    } else {
      StepUnheard(w, w', st, a);
    }
  }

  lemma {:induction false} RunVoice(run: seq<World>, steps: seq<Step>, j: nat, a: AgentId, s: StreamId)
    requires IsRun(run, steps) && j < |run|
    ensures VoiceAt(run[j], a, s)
  {
    if j > 0 {
      RunVoice(run, steps, j - 1, a, s);
      ReadyAt(run, steps, j - 1);
      VoiceStep(run[j - 1], run[j], steps[j - 1], a, s);
    }
  }

  lemma ReachableVoice(w: World, a: AgentId, s: StreamId)
    requires Reachable(w) && HasAgent(w, a)
    ensures VoiceOk(w.agents[a], w.toAgent[a].delivered, s)
  {
    var run, steps :| IsRun(run, steps) && w in run;
    var j :| 0 <= j < |run| && run[j] == w;
    RunVoice(run, steps, j, a, s);
  }

  /** In every reachable state each stream an agent was asked to open is dialled, being dialled, or refused
      with an error of that stream, sent or in hand, unless the agent has left its loop. */
  lemma EveryOpenIsAnswered(w: World, a: AgentId, s: StreamId)
    requires Reachable(w) && HasAgent(w, a) && s in Opens(w.toAgent[a].delivered)
    ensures Answered(w.agents[a], s)
  {
    ReachableVoice(w, a, s);
  }

  lemma {:induction false} PayloadOnStream(log: seq<WireMessage>, s: StreamId)
    ensures Payload(OnStream(log, s), Some(s)) == Payload(log, Some(s))
    decreases |log|
  {
    if |log| > 0 {
      var init, m := log[..|log| - 1], log[|log| - 1];
      PayloadOnStream(init, s);
      if About(m, s) {
        PayloadAppend(OnStream(init, s), m, Some(s));
      } else {
        assert OnStream(log, s) == OnStream(init, s) && Chunk(m, Some(s)) == [];
      }
    }
  }

  function FailureOf(end: ReadEnd): Option<string> {
    match end
    case Broken(text) => Some(text)
    case _ => None
  }

  lemma FinishedSays(l: Local, s: StreamId, word: seq<WireMessage>)
    requires l.reader.Finished? && ReaderSaid(l, s, word, true) && Payload(word, Some(s)) == l.read
    ensures Complete(word, s, l.read, FailureOf(l.end))
    ensures l.end.Broken? ==> |word| >= 2 && word[|word| - 2] == StreamError(s, l.end.text)
  {
  }

  lemma AllRead(w: World, a: AgentId, s: StreamId)
    requires Reachable(w) && HasAgent(w, a) && s in w.agents[a].locals
    ensures w.agents[a].locals[s].read == Payload(w.agents[a].up.Sent(), Some(s)) + w.agents[a].locals[s].unsent
  {
    ReachableInv(w);
    assert AgInv(w, a);
    assert UpBytesOk(w.agents[a], s);
  }

  /** A reader task that has finished while the channel to the relay was open has told it everything: all
      that was read from the target, then the error if reading failed, then a close. */
  lemma FinishedReadersToldAll(w: World, a: AgentId, s: StreamId)
    requires Reachable(w) && HasAgent(w, a) && s in w.agents[a].locals
    requires w.agents[a].locals[s].reader.Finished? && w.agents[a].up.chan.open
    ensures Complete(OnStream(w.agents[a].up.Sent(), s), s, w.agents[a].locals[s].read,
                     FailureOf(w.agents[a].locals[s].end))
  {
    ReachableVoice(w, a, s);
    AllRead(w, a, s);
    PayloadOnStream(w.agents[a].up.Sent(), s);
    FinishedSays(w.agents[a].locals[s], s, OnStream(w.agents[a].up.Sent(), s));
  }

  /* ---------- a failing read ---------- */

  /** Reading from the target failed with this error. */
  predicate Failed(ag: Agent, s: StreamId, text: string) {
    && s in ag.locals && ag.locals[s].end == Broken(text)
    && (ag.locals[s].reader.Failing? || ag.locals[s].reader.Closing? || ag.locals[s].reader.Finished?)
  }

  lemma StepFailed(ag: Agent, down: Pipe, st: AgentStep, s: StreamId, text: string)
    requires Failed(ag, s, text) && PcOk(ag, down.delivered) && AgentEnabled(ag, down, st)
    ensures Failed(AgentNext(ag, down, st), s, text)
  {
    if st.ReceiveFrame? { OnFrameShape(ag, down.wire[0]); }
  }

  lemma OwnFailed(w: World, w': World, a: AgentId, own: OwnStep, c: Conn, s: StreamId, text: string)
    requires AgInv(w, a) && OwnEnabled(ConnOf(w, a), own) && c == OwnNext(ConnOf(w, a), own) && w' == WithConn(w, a, c)
    requires Failed(w.agents[a], s, text)
    ensures HasAgent(w', a) && Failed(w'.agents[a], s, text)
  {
    if own.Process? {
      StepFailed(w.agents[a], w.toAgent[a], own.step, s, text);
    }
  }

  lemma FailedStep(w: World, w': World, st: Step, a: AgentId, s: StreamId, text: string)
    requires Ready(w, st) && Enabled(w, st) && w' == Next(w, st) && HasAgent(w, a) && Failed(w.agents[a], s, text)
    ensures HasAgent(w', a) && Failed(w'.agents[a], s, text)
  {
    if IsOwn(st, a) {
      OwnFailed(w, w', a, st.side.own, OwnNext(ConnOf(w, a), st.side.own), s, text);
    } else {
      StepUnheard(w, w', st, a);
    }
  }

  /** The read of agent `a` from the target of `s` fails in this step. */
  predicate FailsToRead(st: Step, a: AgentId, s: StreamId, text: string) {
    st == ByAgent(a, Own(Process(ReadFailed(s, text))))
  }

  lemma FailingStep(w: World, w': World, a: AgentId, s: StreamId, text: string, c: Conn)
    requires HasAgent(w, a) && OwnEnabled(ConnOf(w, a), Process(ReadFailed(s, text)))
    requires c == OwnNext(ConnOf(w, a), Process(ReadFailed(s, text))) && w' == WithConn(w, a, c)
    ensures HasAgent(w', a) && Failed(w'.agents[a], s, text)
  {
  }

  lemma {:induction false} RunFailed(run: seq<World>, steps: seq<Step>, i: nat, j: nat, a: AgentId, s: StreamId,
                                     text: string)
    requires IsRun(run, steps) && i < j < |run| && FailsToRead(steps[i], a, s, text)
    ensures HasAgent(run[j], a) && Failed(run[j].agents[a], s, text)
    decreases j
  {
    ReadyAt(run, steps, j - 1);
    if i + 1 < j {
      RunFailed(run, steps, i, j - 1, a, s, text);
      FailedStep(run[j - 1], run[j], steps[j - 1], a, s, text);
    } else {
      FailingStep(run[i], run[j], a, s, text, OwnNext(ConnOf(run[i], a), Process(ReadFailed(s, text))));
    }
  }

  /** Over any run, if reading from a target failed and its reader task has since finished with the channel to
      the relay open, then the last the relay was told of the stream is that very error and a close. */
  lemma ReadFailureIsTold(run: seq<World>, steps: seq<Step>, i: nat, j: nat, a: AgentId, s: StreamId, text: string)
    requires IsRun(run, steps) && i < j < |run| && FailsToRead(steps[i], a, s, text)
    ensures HasAgent(run[j], a) && s in run[j].agents[a].locals
    ensures run[j].agents[a].locals[s].reader.Finished? && run[j].agents[a].up.chan.open ==>
              var word := OnStream(run[j].agents[a].up.Sent(), s);
              |word| >= 2 && word[|word| - 2..] == [StreamError(s, text), StreamClose(s)]
  {
    RunFailed(run, steps, i, j, a, s, text);
    RunVoice(run, steps, j, a, s);
  }

  /* ---------- a writer that stops ---------- */

  /** The writer task of the local is over, having written these bytes. */
  predicate Stopped(ag: Agent, s: StreamId, bytes: Bytes) {
    s in ag.locals && !ag.locals[s].writing && !ag.locals[s].toTcp.open && ag.locals[s].written == bytes
  }

  lemma StepStopped(ag: Agent, down: Pipe, st: AgentStep, s: StreamId, bytes: Bytes)
    requires Stopped(ag, s, bytes) && PcOk(ag, down.delivered) && AgentEnabled(ag, down, st)
    ensures Stopped(AgentNext(ag, down, st), s, bytes)
  {
    if st.ReceiveFrame? { OnFrameShape(ag, down.wire[0]); }
  }

  lemma StoppedStep(w: World, w': World, st: Step, a: AgentId, s: StreamId, bytes: Bytes)
    requires Ready(w, st) && Enabled(w, st) && w' == Next(w, st) && HasAgent(w, a) && Stopped(w.agents[a], s, bytes)
    ensures HasAgent(w', a) && Stopped(w'.agents[a], s, bytes)
  {
    if IsOwn(st, a) {
      OwnStopped(w, w', a, st.side.own, OwnNext(ConnOf(w, a), st.side.own), s, bytes);
    } else {
      StepUnheard(w, w', st, a);
    }
  }

  lemma OwnStopped(w: World, w': World, a: AgentId, own: OwnStep, c: Conn, s: StreamId, bytes: Bytes)
    requires AgInv(w, a) && OwnEnabled(ConnOf(w, a), own) && c == OwnNext(ConnOf(w, a), own) && w' == WithConn(w, a, c)
    requires Stopped(w.agents[a], s, bytes)
    ensures HasAgent(w', a) && Stopped(w'.agents[a], s, bytes)
  {
    if own.Process? {
      StepStopped(w.agents[a], w.toAgent[a], own.step, s, bytes);
    }
  }

  lemma StoppingStep(w: World, w': World, a: AgentId, s: StreamId, c: Conn)
    requires HasAgent(w, a) && OwnEnabled(ConnOf(w, a), Process(WriterStop(s)))
    requires c == OwnNext(ConnOf(w, a), Process(WriterStop(s))) && w' == WithConn(w, a, c)
    ensures HasAgent(w', a) && Stopped(w'.agents[a], s, w.agents[a].locals[s].written)
  {
  }

  lemma StopsAt(run: seq<World>, steps: seq<Step>, i: nat, a: AgentId, s: StreamId)
    requires IsRun(run, steps) && i < |steps| && steps[i] == ByAgent(a, Own(Process(WriterStop(s))))
    ensures HasAgent(run[i], a) && s in run[i].agents[a].locals
    ensures HasAgent(run[i + 1], a) && Stopped(run[i + 1].agents[a], s, run[i].agents[a].locals[s].written)
  {
    assert Follows(run, steps, i);
    StoppingStep(run[i], run[i + 1], a, s, OwnNext(ConnOf(run[i], a), Process(WriterStop(s))));
  }

  lemma {:induction false} StaysStopped(run: seq<World>, steps: seq<Step>, i: nat, j: nat, a: AgentId, s: StreamId,
                                        bytes: Bytes)
    requires IsRun(run, steps) && i <= j < |run| && HasAgent(run[i], a) && Stopped(run[i].agents[a], s, bytes)
    ensures HasAgent(run[j], a) && Stopped(run[j].agents[a], s, bytes)
    decreases j
  {
    if i < j {
      StaysStopped(run, steps, i, j - 1, a, s, bytes);
      ReadyAt(run, steps, j - 1);
      StoppedStep(run[j - 1], run[j], steps[j - 1], a, s, bytes);
    }
  }

  /** Over any run, a writer task that has stopped writes nothing more, and its channel takes nothing more. */
  lemma StoppedWritersAreDone(run: seq<World>, steps: seq<Step>, i: nat, j: nat, a: AgentId, s: StreamId)
    requires IsRun(run, steps) && i < j < |run| && steps[i] == ByAgent(a, Own(Process(WriterStop(s))))
    ensures HasAgent(run[i], a) && s in run[i].agents[a].locals && HasAgent(run[j], a)
    ensures Stopped(run[j].agents[a], s, run[i].agents[a].locals[s].written)
  {
    StopsAt(run, steps, i, a, s);
    StaysStopped(run, steps, i + 1, j, a, s, run[i].agents[a].locals[s].written);
  }
}
