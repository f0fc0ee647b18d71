/** A run in which a stream is left behind: its agent's connection is cleared between the operator
    handler's two lock sections, and the refused `OpenStream` ends the handler without a removal. */
module LeakWitness {
  import opened Wire
  import opened Pipes
  import opened AgentProcess
  import opened OperatorStream
  import opened RelayRules
  import opened RelaySystem
  import opened RelayInvariant
  import opened Invariance
  import opened Delivery
  import opened Leaks

  /** A run can be continued by any step that is enabled. */
  lemma Extend(w: World, st: Step)
    requires Reachable(w) && Enabled(w, st)
    ensures Reachable(Next(w, st))
  {
    var run, steps :| IsRun(run, steps) && w in run;
    var i :| 0 <= i < |run| && run[i] == w;
    var run', steps' := run[..i + 1] + [Next(w, st)], steps[..i] + [st];
    forall k | 0 <= k < |steps'| ensures Follows(run', steps', k) {
      if k < i { assert Follows(run, steps, k); }
    }
    assert IsRun(run', steps') && Next(w, st) in run';
  }

  lemma StartIsReachable()
    ensures Reachable(START)
  {
    var run, steps: seq<Step> := [START], [];
    assert IsRun(run, steps) && START in run;
  }

  const SESSION := "rk-1"
  const CODE := "RK-1"
  const TUNNEL := TunnelSpec("ssh", Ssh, TunnelEndpoint("127.0.0.1", 22))
  const AGENT: AgentId := 0
  const STREAM: StreamId := 1

  lemma OffersAreAuthorized()
    ensures OffersError([TUNNEL], Offers([TUNNEL])).None?
  {
    OffersAccepted([TUNNEL], Offers([TUNNEL]));
  }

  /** The session exists and has no agent; the agent's hello is on its way. */
  ghost predicate HelloSent(w: World) {
    && Reachable(w) && w.now == 0 && w.nextStream == STREAM && w.ops == map[] && w.toOp == map[]
    && w.sessions == map[SESSION := NewSession(CODE, None, [TUNNEL], 60, 0)]
    && w.births == map[SESSION := Birth(CODE, [TUNNEL], 0, 60, None, 0)]
    && HasAgent(w, AGENT)
    && w.handlers[AGENT] == AgentHandler(AwaitingHello, None, false, None, [])
    && w.toAgent[AGENT] == NewPipe()
    && w.agents[AGENT].up.wire == [AgentHello(PROTOCOL_VERSION, CODE, None, Offers([TUNNEL]))]
  }

  lemma SayHello() returns (w: World)
    ensures HelloSent(w)
  {
    StartIsReachable();
    var create := CreateSession(SESSION, CODE, None, [TUNNEL], 60);
    Extend(START, create);
    var w1 := Next(START, create);
    var start := StartAgent(AGENT, CODE, None, [TUNNEL]);
    Extend(w1, start);
    var w2 := Next(w1, start);
    var take := ByAgent(AGENT, Own(Process(UpMove(TakeMove))));
    Extend(w2, take);
    var w3 := Next(w2, take);
    var put := ByAgent(AGENT, Own(Process(UpMove(PutMove))));
    Extend(w3, put);
    w := Next(w3, put);
  }

  /** The agent is attached to the session, and its handler is in its loop. */
  ghost predicate AgentAttached(w: World) {
    && Reachable(w) && w.now == 0 && w.nextStream == STREAM && w.ops == map[] && w.toOp == map[]
    && SESSION in w.sessions && w.sessions[SESSION].expiresAt == 60 && w.sessions[SESSION].allowed == [TUNNEL]
    && w.sessions[SESSION].agent == Some(AGENT)
    && HasAgent(w, AGENT) && w.handlers[AGENT].pc.Serving? && w.handlers[AGENT].session == Some(SESSION)
  }

  /** The code has been used, and the agent not yet attached. */
  ghost predicate CodeUsed(w: World) {
    && Reachable(w) && w.now == 0 && w.nextStream == STREAM && w.ops == map[] && w.toOp == map[]
    && SESSION in w.sessions && w.sessions[SESSION].expiresAt == 60 && w.sessions[SESSION].allowed == [TUNNEL]
    && HasAgent(w, AGENT) && w.handlers[AGENT].pc.Greeting? && w.handlers[AGENT].session == Some(SESSION)
    && w.toAgent[AGENT] == NewPipe()
  }

  lemma UseCode(w: World) returns (w': World)
    requires HelloSent(w)
    ensures CodeUsed(w')
  {
    OffersAreAuthorized();
    var receive := ByAgent(AGENT, Own(ReceiveHello));
    Extend(w, receive);
    var w1 := Next(w, receive);
    var register := ByAgent(AGENT, Register(Some(SESSION)));
    Extend(w1, register);
    w' := Next(w1, register);
  }

  lemma AttachAgent(w: World) returns (w': World)
    requires CodeUsed(w)
    ensures AgentAttached(w')
  {
    var greet := ByAgent(AGENT, Own(Greet));
    Extend(w, greet);
    var w1 := Next(w, greet);
    var attach := ByAgent(AGENT, Attach);
    Extend(w1, attach);
    w' := Next(w1, attach);
  }

  /** An operator stream has been admitted, and waits for its handler's second lock section. */
  ghost predicate StreamAdmitted(w: World) {
    && Reachable(w)
    && SESSION in w.sessions && HasAgent(w, AGENT) && w.handlers[AGENT].session == Some(SESSION)
    && HasOp(w, STREAM) && w.ops[STREAM].pc.Inserting? && w.ops[STREAM].session == SESSION
    && w.ops[STREAM].agent == Some(AGENT)
  }

  lemma AdmitStream(w: World) returns (w': World)
    requires AgentAttached(w)
    ensures StreamAdmitted(w') && w'.handlers[AGENT].pc.Serving?
  {
    var arrive := OpenOperator(SESSION, "ssh");
    Extend(w, arrive);
    var w1 := Next(w, arrive);
    assert FindTunnel([TUNNEL], "ssh") == Some(TUNNEL);
    var check := ByOperator(STREAM, Check);
    Extend(w1, check);
    w' := Next(w1, check);
  }

  /** The agent's handler is leaving: its channel is closed, its session still holds it. */
  ghost predicate AgentLeaving(w: World) {
    && Reachable(w) && SESSION in w.sessions && HasAgent(w, AGENT) && w.handlers[AGENT].session == Some(SESSION)
    && w.handlers[AGENT].pc.Clearing? && !w.toAgent[AGENT].chan.open
  }

  lemma LoseAgent(w: World) returns (w': World)
    requires Reachable(w) && SESSION in w.sessions && HasAgent(w, AGENT) && w.handlers[AGENT].session == Some(SESSION)
    requires w.handlers[AGENT].pc.Serving?
    ensures AgentLeaving(w') && w'.ops == w.ops && w'.toOp == w.toOp && w'.sessions == w.sessions
  {
    var leave := ByAgent(AGENT, Own(LeaveAgentLoop));
    Extend(w, leave);
    var w1 := Next(w, leave);
    var abort := ByAgent(AGENT, Own(AbortAgentOutbound(false)));
    Extend(w1, abort);
    w' := Next(w1, abort);
  }

  lemma ClearLeaving(w: World) returns (w': World)
    requires AgentLeaving(w)
    ensures Reachable(w') && HasAgent(w', AGENT) && w'.handlers[AGENT].pc.Ended? && !w'.toAgent[AGENT].chan.open
    ensures w'.ops == w.ops && w'.toOp.Keys == w.toOp.Keys && w'.sessions == WithoutAgent(w.sessions, SESSION)
    ensures w'.handlers[AGENT].session == Some(SESSION)
  {
    var clear := ByAgent(AGENT, ClearAgent);
    Extend(w, clear);
    w' := Next(w, clear);
  }

  lemma InsertStream(w: World) returns (w': World)
    requires StreamAdmitted(w)
    ensures Reachable(w') && HasOp(w', STREAM) && w'.ops[STREAM].pc.Opening? && w'.ops[STREAM].agent == Some(AGENT)
    ensures w'.ops[STREAM].session == SESSION && w'.ops[STREAM].inserted && !w'.ops[STREAM].started
    ensures w'.ops[STREAM].late == w.handlers[AGENT].pc.Ended?
    ensures w'.handlers == w.handlers && w'.toAgent == w.toAgent && w'.agents == w.agents
    ensures w'.sessions == WithStream(w.sessions, SESSION, STREAM)
  {
    ReachableInv(w);
    assert OpInv(w, STREAM);
    var insert := ByOperator(STREAM, Insert);
    Extend(w, insert);
    w' := Next(w, insert);
  }

  lemma FailToOpen(w: World) returns (w': World)
    requires Reachable(w) && HasOp(w, STREAM) && w.ops[STREAM].pc.Opening? && w.ops[STREAM].agent == Some(AGENT)
    requires !w.toAgent[AGENT].chan.open
    ensures Reachable(w') && STREAM in w'.ops && w'.ops[STREAM] == w.ops[STREAM].(pc := Gone)
    ensures w'.sessions == w.sessions && w'.handlers == w.handlers
  {
    var lost := ByOperator(STREAM, SendOpenLost);
    Extend(w, lost);
    w' := Next(w, lost);
  }

  lemma Admitted() returns (w: World)
    ensures StreamAdmitted(w) && w.handlers[AGENT].pc.Serving?
  {
    w := SayHello();
    w := UseCode(w);
    w := AttachAgent(w);
    w := AdmitStream(w);
  }

  /** The leak happens: a reachable state in which a stream's handler has returned, its agent is gone, and
      the stream is still in its session's map. */
  lemma LeakHappens()
    ensures exists w :: Reachable(w) && Leaked(w, STREAM)
  {
    var admitted := Admitted();
    var leaving := LoseAgent(admitted);
    var cleared := ClearLeaving(leaving);
    var inserted := InsertStream(cleared);
    var leaked := FailToOpen(inserted);
    assert SESSION in leaked.sessions && STREAM in leaked.sessions[SESSION].streams;
  }

  /** A refused `OpenStream` need not leak: cleared after the insertion, the stream is in no map. */
  lemma RefusalMayBeCleared()
    ensures exists w :: Reachable(w) && STREAM in w.ops && w.ops[STREAM].pc.Gone? && w.ops[STREAM].inserted
                        && !w.ops[STREAM].started && !InSomeMap(w.sessions, STREAM)
  {
    var admitted := Admitted();
    var inserted := InsertStream(admitted);
    var leaving := LoseAgent(inserted);
    var cleared := ClearLeaving(leaving);
    var gone := FailToOpen(cleared);
    LeftBehindExactly(gone, STREAM);
  }
}
