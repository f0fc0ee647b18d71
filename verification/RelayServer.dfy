/** The relay's shared state as the object it is, with one method per lock section. Every method is
    proved against the functions of RelayRules, which the steps of RelaySystem also use. */
module RelayServer {
  import opened Wire
  import opened Pipes
  import opened OperatorStream
  import opened RelayRules

  datatype Outcome<+T, +E> = Ok(value: T) | Err(error: E)

  /** The validation loop: the first offence in offer order, found by two inner searches. */
  method ValidateAgentExposes(allowed: seq<TunnelSpec>, offers: seq<TunnelOffer>) returns (error: Option<JoinError>)
    ensures error == OffersError(allowed, offers)
    ensures error.None? <==> OffersAuthorized(allowed, offers)
    ensures error.Some? ==> exists i: nat :: i < |offers| && OffersAuthorized(allowed, offers[..i])
                                             && Offends(allowed, offers, i, error.value)
  {
    OffersAccepted(allowed, offers);
    if OffersError(allowed, offers).Some? {
      FirstOfferErrorWins(allowed, offers, OffersError(allowed, offers).value);
    }
    for index := 0 to |offers|
      invariant OffersError(allowed, offers[..index]).None?
    {
      var offer := offers[index];
      assert offers[..index + 1][..index] == offers[..index];
      OfferErrorOfPrefix(allowed, offers, index + 1, index);
      var repeated := SeenBefore(offers, index);
      if repeated {
        ErrorStands(allowed, offers, index);
        return Some(DuplicateTunnel(offer.name));
      }
      var tunnel := FirstNamed(allowed, offer.name);
      if tunnel.None? {
        ErrorStands(allowed, offers, index);
        return Some(UnauthorizedTunnel(offer.name));
      }
      if tunnel.value.target.host != offer.host || tunnel.value.target.port != offer.port {
        ErrorStands(allowed, offers, index);
        return Some(TargetMismatch(offer.name));
      }
    }
    assert offers[..|offers|] == offers;
    return None;
  }

  /** `exposes[..index].iter().any(..)` */
  method SeenBefore(offers: seq<TunnelOffer>, index: nat) returns (repeated: bool)
    requires index < |offers|
    ensures repeated <==> exists j :: 0 <= j < index && offers[j].name == offers[index].name
  {
    for j := 0 to index
      invariant forall k :: 0 <= k < j ==> offers[k].name != offers[index].name
    {
      if offers[j].name == offers[index].name {
        return true;
      }
    }
    return false;
  }

  /** `allowed_tunnels.iter().find(..)` */
  method FirstNamed(allowed: seq<TunnelSpec>, name: string) returns (found: Option<TunnelSpec>)
    ensures found == FindTunnel(allowed, name)
  {
    for i := 0 to |allowed|
      invariant FindTunnel(allowed, name) == FindTunnel(allowed[i..], name)
    {
      if allowed[i].name == name {
        return Some(allowed[i]);
      }
    }
    return None;
  }

  /** The first error of a prefix is the first error of the whole. */
  lemma {:induction false} ErrorStands(allowed: seq<TunnelSpec>, offers: seq<TunnelOffer>, i: nat)
    requires i < |offers| && OffersError(allowed, offers[..i]).None? && OfferError(allowed, offers, i).Some?
    ensures OffersError(allowed, offers) == OfferError(allowed, offers, i)
    decreases |offers|
  {
    var n := |offers| - 1;
    if i < n {
      var init := offers[..n];
      assert init[..i] == offers[..i];
      assert init[..i + 1] == offers[..i + 1];
      OfferErrorOfPrefix(allowed, offers, i + 1, i);
      OfferErrorOfPrefix(allowed, init, i + 1, i);
      ErrorStands(allowed, init, i);
    }
  }

  /** A session's streams feed their own, existing channels, under ids already given out; its agent's
      channel exists. */
  ghost predicate SessionOk(x: Session, nextStream: StreamId, agents: set<AgentId>, channels: set<StreamId>) {
    && (forall s :: s in x.streams ==> x.streams[s] == s && s in channels && s < nextStream)
    && (x.agent.Some? ==> x.agent.value in agents)
  }

  /** No stream is in the maps of both. */
  ghost predicate Apart(x: Session, y: Session) {
    forall s :: s in x.streams ==> s !in y.streams
  }

  ghost predicate TableOk(sessions: Sessions, nextStream: StreamId, agents: set<AgentId>, channels: set<StreamId>) {
    && (forall sid :: sid in sessions ==> SessionOk(sessions[sid], nextStream, agents, channels))
    && (forall sid, other :: sid in sessions && other in sessions && sid != other ==>
        Apart(sessions[sid], sessions[other]))
  }

  lemma WithoutAgentOk(sessions: Sessions, nextStream: StreamId, agents: set<AgentId>, channels: set<StreamId>,
                       sid: SessionId)
    requires TableOk(sessions, nextStream, agents, channels)
    ensures TableOk(WithoutAgent(sessions, sid), nextStream, agents, channels)
  {
  }

  lemma ClearedTwice(sessions: Sessions, sid: SessionId)
    requires sid in sessions
    ensures var x := sessions[sid].(agent := None);
      sessions[sid := x][sid := x.(streams := map[])] == WithoutAgent(sessions, sid)
  {
  }

  lemma WithoutStreamOk(sessions: Sessions, nextStream: StreamId, agents: set<AgentId>, channels: set<StreamId>,
                        s: StreamId)
    requires TableOk(sessions, nextStream, agents, channels)
    ensures TableOk(WithoutStream(sessions, s), nextStream, agents, channels)
  {
    var after := WithoutStream(sessions, s);
    forall sid | sid in after ensures SessionOk(after[sid], nextStream, agents, channels) {
      assert SessionOk(sessions[sid], nextStream, agents, channels);
    }
    forall sid, other | sid in after && other in after && sid != other ensures Apart(after[sid], after[other]) {
      assert Apart(sessions[sid], sessions[other]);
    }
  }

  /** The table when the removal loop has still to visit the sessions of `rest`. */
  ghost function WithoutStreamExcept(sessions: Sessions, s: StreamId, rest: set<SessionId>): Sessions {
    map sid | sid in sessions ::
      if sid in rest then sessions[sid] else sessions[sid].(streams := sessions[sid].streams - {s})
  }

  lemma NothingRemoved(sessions: Sessions, s: StreamId)
    ensures WithoutStreamExcept(sessions, s, sessions.Keys) == sessions
  {
  }

  lemma AllRemoved(sessions: Sessions, s: StreamId)
    ensures WithoutStreamExcept(sessions, s, {}) == WithoutStream(sessions, s)
  {
  }

  lemma RemoveOneMore(sessions: Sessions, s: StreamId, rest: set<SessionId>, sid: SessionId)
    requires sid in rest && sid in sessions
    ensures WithoutStreamExcept(sessions, s, rest - {sid})
         == WithoutStreamExcept(sessions, s, rest)[sid := sessions[sid].(streams := sessions[sid].streams - {s})]
  {
  }

  class RelayServer {
    var sessions: Sessions
    var nextStream: StreamId
    var toAgent: map<AgentId, Pipe>
    var toOp: map<StreamId, Pipe>

    ghost predicate Valid()
      reads this
    {
      nextStream > 0 && TableOk(sessions, nextStream, toAgent.Keys, toOp.Keys)
    }

    constructor ()
      ensures Valid() && sessions == map[] && nextStream == 1 && toAgent == map[] && toOp == map[]
    {
      sessions, nextStream, toAgent, toOp := map[], 1, map[], map[];
    }

    /** `create_session`: an empty list of tunnels is refused. */
    method CreateSession(sid: SessionId, code: SessionCode, device: Option<string>, allowed: seq<TunnelSpec>,
                         requestedTtl: nat, now: nat)
      returns (ok: bool)
      requires Valid() && sid !in sessions
      modifies this`sessions
      ensures Valid() && (ok <==> allowed != [])
      ensures ok ==> sid in sessions && sessions - {sid} == old(sessions) && IsNew(sessions[sid], code, device, allowed)
                     && sessions[sid].expiresAt == now + (if requestedTtl < 60 then 60 else requestedTtl)
      ensures ok ==> sessions[sid] == NewSession(code, device, allowed, requestedTtl, now)
      ensures !ok ==> sessions == old(sessions)
    {
      if allowed == [] {
        return false;
      }
      sessions := sessions[sid := NewSession(code, device, allowed, requestedTtl, now)];
      return true;
    }

    /** The search for a session by code, in whatever order the map yields its sessions. */
    method FindByCode(code: SessionCode) returns (found: Option<SessionId>)
      ensures FoundByCode(sessions, code, found)
    {
      var rest := sessions.Keys;
      while rest != {}
        invariant rest <= sessions.Keys
        invariant forall sid :: sid in sessions && sid !in rest ==> sessions[sid].code != code
        decreases rest
      {
        var sid :| sid in rest;
        rest := rest - {sid};
        if sessions[sid].code == code {
          return Some(sid);
        }
      }
      return None;
    }

    /** `register_agent_session`: at most one session's `device` and `consumed` change. */
    method RegisterAgentSession(code: SessionCode, device: Option<string>, offers: seq<TunnelOffer>, now: nat)
      returns (r: Outcome<SessionId, JoinError>)
      requires Valid()
      modifies this`sessions
      ensures Valid()
      ensures r.Ok? ==>
                && r.value in old(sessions) && old(sessions)[r.value].code == code
                && MayJoin(old(sessions)[r.value], now, offers)
                && sessions == old(sessions)[r.value := Joined(old(sessions)[r.value], device)]
                && Consumes(old(sessions)[r.value], sessions[r.value], device)
      ensures r.Err? ==>
                && sessions == old(sessions)
                && (r.error.CodeNotFound? <==> forall sid :: sid in sessions ==> sessions[sid].code != code)
                && (!r.error.CodeNotFound? ==>
                      exists sid :: sid in sessions && sessions[sid].code == code
                                    && JoinFails(sessions[sid], now, offers, r.error))
    {
      var found := FindByCode(code);
      if found.None? {
        return Err(CodeNotFound);
      }
      var session := sessions[found.value];
      JoinExactly(session, now, offers);
      if session.expiresAt <= now {
        return Err(SessionExpired);
      }
      if session.consumed {
        return Err(CodeAlreadyUsed);
      }
      var refusal := ValidateAgentExposes(session.allowed, offers);
      OffersErrorIsAboutOffers(session.allowed, offers);
      if refusal.Some? {
        return Err(refusal.value);
      }
      var known := if device.Some? then device else session.device;
      sessions := sessions[found.value := session.(device := known, consumed := true)];
      return Ok(found.value);
    }

    /** The second lock section of the agent handler. */
    method AttachAgent(sid: SessionId, a: AgentId) returns (ok: bool)
      requires Valid() && a in toAgent
      modifies this`sessions
      ensures Valid() && (ok <==> sid in old(sessions))
      ensures sessions == if ok then WithAgent(old(sessions), sid, a) else old(sessions)
    {
      if sid !in sessions {
        return false;
      }
      sessions := sessions[sid := sessions[sid].(agent := Some(a))];
      return true;
    }

    /** `next_stream.fetch_add(1)`: the id was given out to nobody before. */
    method AllocateStream() returns (s: StreamId)
      requires Valid()
      modifies this`nextStream
      ensures Valid() && s == old(nextStream) && nextStream == s + 1
      ensures forall sid :: sid in sessions ==> s !in sessions[sid].streams
    {
      s := nextStream;
      nextStream := nextStream + 1;
    }

    /** The operator handler's first lock section. */
    method CheckOperator(sid: SessionId, target: string, now: nat) returns (r: Outcome<AgentId, OpenError>)
      requires Valid()
      ensures r.Ok? <==> MayOpen(sessions, sid, target, now)
      ensures r.Ok? ==> r.value in toAgent && sessions[sid].agent == Some(r.value)
      ensures r.Err? ==> OpenFails(sessions, sid, target, now, r.error)
      ensures r.Err? <==> OpenRefusal(sessions, sid, target, now).Some?
      ensures r.Err? ==> OpenRefusal(sessions, sid, target, now) == Some(r.error)
    {
      OpenExactly(sessions, sid, target, now);
      if sid !in sessions {
        return Err(SessionMissing);
      }
      if sessions[sid].expiresAt <= now {
        return Err(OpenExpired);
      }
      var tunnel := FirstNamed(sessions[sid].allowed, target);
      if tunnel.None? {
        return Err(TargetNotAllowed);
      }
      match sessions[sid].agent {
        case None => return Err(AgentMissing);
        case Some(a) => return Ok(a);
      }
    }

    /** The second: a fresh channel enters the session's map, if the session is still there. */
    method InsertStream(sid: SessionId, s: StreamId) returns (ok: bool)
      requires Valid() && s < nextStream && s !in toOp
      modifies this`sessions, this`toOp
      ensures Valid() && (ok <==> sid in old(sessions))
      ensures sessions == if ok then WithStream(old(sessions), sid, s) else old(sessions)
      ensures toOp == old(toOp)[s := if ok then NewPipe() else NewPipe().Stop()]
    {
      toOp := toOp[s := NewPipe()];
      if sid !in sessions {
        toOp := toOp[s := toOp[s].Stop()];
        return false;
      }
      sessions := sessions[sid := sessions[sid].(streams := sessions[sid].streams[s := s])];
      return true;
    }

    /** The lookup of `send_to_operator`, over all sessions in any order. */
    method FindOperator(s: StreamId) returns (peer: Option<StreamId>)
      requires Valid()
      ensures peer == if exists sid :: sid in sessions && s in sessions[sid].streams then Some(s) else None
      ensures peer.Some? ==> peer.value in toOp
    {
      var rest := sessions.Keys;
      while rest != {}
        invariant rest <= sessions.Keys
        invariant forall sid :: sid in sessions && sid !in rest ==> s !in sessions[sid].streams
        decreases rest
      {
        var sid :| sid in rest;
        rest := rest - {sid};
        if s in sessions[sid].streams {
          return Some(sessions[sid].streams[s]);
        }
      }
      return None;
    }

    /** `remove_stream`: the loop over all sessions. */
    method RemoveStream(s: StreamId)
      requires Valid()
      modifies this`sessions
      ensures Valid() && sessions == WithoutStream(old(sessions), s)
    {
      ghost var was := sessions;
      WithoutStreamOk(was, nextStream, toAgent.Keys, toOp.Keys, s);
      NothingRemoved(was, s);
      var rest := sessions.Keys;
      while rest != {}
        invariant rest <= was.Keys
        invariant sessions == WithoutStreamExcept(was, s, rest)
        decreases rest
      {
        var sid :| sid in rest;
        assert sessions[sid] == was[sid];
        sessions := sessions[sid := sessions[sid].(streams := sessions[sid].streams - {s})];
        RemoveOneMore(was, s, rest, sid);
        rest := rest - {sid};
      }
      AllRemoved(was, s);
    }

    /** One `try_send` of its own error to every stream of a map, in any order. */
    method NotifyStreams(streams: map<StreamId, StreamId>, text: string)
      requires forall s :: s in streams ==> streams[s] == s && s in toOp
      modifies this`toOp
      ensures toOp == Notified(old(toOp), streams, text) && toOp.Keys == old(toOp.Keys)
    {
      ghost var was := toOp;
      var rest := streams.Keys;
      while rest != {}
        invariant rest <= streams.Keys && toOp.Keys == was.Keys
        invariant forall s :: s in was ==>
          toOp[s] == if s in streams && s !in rest then was[s].TrySend(StreamError(s, text)) else was[s]
        decreases rest
      {
        var s :| s in rest;
        rest := rest - {s};
        var peer := streams[s];
        toOp := toOp[peer := toOp[peer].TrySend(StreamError(s, text))];
      }
    }

    /** `clear_agent`: the session loses its agent, every stream is told, and the map is emptied. */
    method ClearAgent(sid: SessionId)
      requires Valid()
      modifies this`sessions, this`toOp
      ensures Valid() && sessions == WithoutAgent(old(sessions), sid)
      ensures toOp == if sid in old(sessions)
                      then Notified(old(toOp), old(sessions)[sid].streams, AGENT_DISCONNECTED) else old(toOp)
    {
      if sid in sessions {
        ClearSession(sid);
      }
    }

    /** The body of `clear_agent` for a session that exists. */
    method ClearSession(sid: SessionId)
      requires Valid() && sid in sessions
      modifies this`sessions, this`toOp
      ensures Valid() && sessions == WithoutAgent(old(sessions), sid)
      ensures toOp == Notified(old(toOp), old(sessions)[sid].streams, AGENT_DISCONNECTED)
    {
      ghost var was := sessions;
      var session := sessions[sid];
      assert SessionOk(session, nextStream, toAgent.Keys, toOp.Keys);
      WithoutAgentOk(was, nextStream, toAgent.Keys, toOp.Keys, sid);
      sessions := sessions[sid := session.(agent := None)];
      NotifyStreams(session.streams, AGENT_DISCONNECTED);
      sessions := sessions[sid := session.(agent := None).(streams := map[])];
      ClearedTwice(was, sid);
    }

    /** `end_session` with `notify_session_closed`. */
    method EndSession(sid: SessionId) returns (ok: bool)
      requires Valid()
      modifies this`sessions, this`toAgent, this`toOp
      ensures Valid() && (ok <==> sid in old(sessions)) && sessions == old(sessions) - {sid}
      ensures toOp == if ok then Notified(old(toOp), old(sessions)[sid].streams, SESSION_ENDED) else old(toOp)
      ensures toAgent == if ok && old(sessions)[sid].agent.Some?
                         then var a := old(sessions)[sid].agent.value;
                              old(toAgent)[a := old(toAgent)[a].TrySend(Error(SESSION_ENDED))]
                         else old(toAgent)
    {
      if sid !in sessions {
        return false;
      }
      var session := sessions[sid];
      sessions := sessions - {sid};
      if session.agent.Some? {
        var a := session.agent.value;
        toAgent := toAgent[a := toAgent[a].TrySend(Error(SESSION_ENDED))];
      }
      NotifyStreams(session.streams, SESSION_ENDED);
      return true;
    }
  }

  /** An error of the offers never blames the code itself. */
  lemma {:induction false} OffersErrorIsAboutOffers(allowed: seq<TunnelSpec>, offers: seq<TunnelOffer>)
    ensures var e := OffersError(allowed, offers);
      e.Some? ==> e.value.DuplicateTunnel? || e.value.UnauthorizedTunnel? || e.value.TargetMismatch?
    decreases |offers|
  {
    if |offers| > 0 {
      OffersErrorIsAboutOffers(allowed, offers[..|offers| - 1]);
    }
  }

  /** The disconnect broadcast, queue by queue: a stream of the session gets exactly one error carrying
      its own id if its operator still listens and has room, and no other queue changes. */
  lemma BroadcastIsExact(toOp: map<StreamId, Pipe>, streams: map<StreamId, StreamId>, text: string, s: StreamId)
    requires s in toOp
    ensures Notified(toOp, streams, text).Keys == toOp.Keys
    ensures Notified(toOp, streams, text)[s].Sent() ==
              if s in streams && toOp[s].chan.open && |toOp[s].chan.queue| < CAPACITY
              then toOp[s].Sent() + [StreamError(s, text)] else toOp[s].Sent()
    ensures s !in streams || !toOp[s].chan.CanSend() ==> Notified(toOp, streams, text)[s] == toOp[s]
  {
    TrySendAppendsOrDrops(toOp[s], StreamError(s, text));
  }
}
