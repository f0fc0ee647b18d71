/** The relay routes frames by searching every session. In every reachable state that gives the same
    result as looking only at the sender's own session. */
module Routing {
  import opened Wire
  import opened OperatorStream
  import opened RelayRules
  import opened RelaySystem
  import opened RelayInvariant
  import opened Delivery

  /** The removal a session-scoped relay would do. */
  function WithoutOwnStream(sessions: Sessions, sid: SessionId, s: StreamId): Sessions {
    if sid in sessions then sessions[sid := sessions[sid].(streams := sessions[sid].streams - {s})] else sessions
  }

  /** The lookup a session-scoped relay would do. */
  function FoundInOwn(sessions: Sessions, sid: SessionId, s: StreamId): Option<SessionId> {
    if sid in sessions && s in sessions[sid].streams then Some(sid) else None
  }

  /** A stream id is in the map of at most its own session. */
  lemma StreamInOwnMapOnly(w: World, s: StreamId, sid: SessionId)
    requires Reachable(w) && sid in w.sessions && s in w.sessions[sid].streams
    ensures s in w.ops && w.ops[s].session == sid && w.sessions[sid].streams[s] == s
  {
    ReachableInv(w);
    assert SessionInv(w, sid);
  }

  /** A stream an agent may speak of belongs to that agent's session. */
  lemma AskedInOwnSession(w: World, a: AgentId, s: StreamId)
    requires Reachable(w) && HasAgent(w, a) && s in Opens(w.toAgent[a].Sent())
    ensures s in w.ops && w.ops[s].agent == Some(a) && w.handlers[a].session == Some(w.ops[s].session)
  {
    ReachableInv(w);
    assert AgInv(w, a);
    AskedStarted(w.ops, a, w.toAgent[a].Sent(), s);
    assert OpInv(w, s);
  }

  lemma SearchIsOwn(w: World, sid: SessionId, s: StreamId, found: Option<SessionId>)
    requires Reachable(w) && (s in w.ops ==> w.ops[s].session == sid)
    requires FoundStream(w.sessions, s, found)
    ensures found == FoundInOwn(w.sessions, sid, s)
  {
    if found.Some? {
      StreamInOwnMapOnly(w, s, found.value);
    }
  }

  lemma RemovalIsOwn(w: World, sid: SessionId, s: StreamId)
    requires Reachable(w) && (s in w.ops ==> w.ops[s].session == sid)
    ensures WithoutStream(w.sessions, s) == WithoutOwnStream(w.sessions, sid, s)
  {
    forall other | other in w.sessions && other != sid
      ensures w.sessions[other].streams - {s} == w.sessions[other].streams
    {
      if s in w.sessions[other].streams {
        StreamInOwnMapOnly(w, s, other);
      }
    }
  }

  /** Whatever the all-sessions search of the agent's handler finds, in any iteration order, is what
      the agent's own session holds. */
  lemma LookUpIsSessionScoped(w: World, a: AgentId, found: Option<SessionId>)
    requires Reachable(w) && HasAgent(w, a) && AgentSideEnabled(w, a, LookUp(found))
    ensures w.handlers[a].session.Some?
    ensures found == FoundInOwn(w.sessions, w.handlers[a].session.value, StreamOf(w.handlers[a].hand.value).value)
  {
    ReachableInv(w);
    assert AgInv(w, a);
    var s := StreamOf(w.handlers[a].hand.value).value;
    AskedInOwnSession(w, a, s);
    SearchIsOwn(w, w.ops[s].session, s, found);
  }

  /** The all-sessions removal loop of the agent's handler touches only the agent's own session. */
  lemma DropIsSessionScoped(w: World, a: AgentId)
    requires Reachable(w) && HasAgent(w, a) && w.handlers[a].pc.Dropping?
    ensures w.handlers[a].session.Some?
    ensures WithoutStream(w.sessions, w.handlers[a].pc.stream)
         == WithoutOwnStream(w.sessions, w.handlers[a].session.value, w.handlers[a].pc.stream)
  {
    ReachableInv(w);
    assert AgInv(w, a);
    var s := w.handlers[a].pc.stream;
    AskedInOwnSession(w, a, s);
    RemovalIsOwn(w, w.ops[s].session, s);
  }

  /** So does the operator handler's. */
  lemma RemoveOwnIsSessionScoped(w: World, s: StreamId)
    requires Reachable(w) && s in w.ops
    ensures WithoutStream(w.sessions, s) == WithoutOwnStream(w.sessions, w.ops[s].session, s)
  {
    RemovalIsOwn(w, w.ops[s].session, s);
  }

  /** The operator channel a frame is delivered to is that of the frame's own stream, in the sender's session. */
  lemma DeliveredToOwnStream(w: World, a: AgentId)
    requires Reachable(w) && HasAgent(w, a) && w.handlers[a].pc.Delivering?
    ensures var peer := w.handlers[a].pc.peer;
      && w.handlers[a].hand.Some? && About(w.handlers[a].hand.value, peer)
      && peer in w.ops && w.ops[peer].agent == Some(a) && w.handlers[a].session == Some(w.ops[peer].session)
  {
    ReachableInv(w);
    assert AgInv(w, a);
    AskedInOwnSession(w, a, w.handlers[a].pc.peer);
  }
}
