/** What the relay's lock sections compute on the session table, as functions and relations.
    The class in RelayServer implements them; the step system in RelaySystem uses them. */
module RelayRules {
  import opened Wire
  import opened Pipes
  import opened OperatorStream

  const MIN_TTL: nat := 60

  /** `agent` names the agent connection whose sender is attached. `streams` maps a stream id to the
      operator channel its sender feeds; a channel is named by the stream id of the handler that made it. */
  datatype Session = Session(code: SessionCode, device: Option<string>, allowed: seq<TunnelSpec>, ttl: nat,
                             expiresAt: nat, consumed: bool, agent: Option<AgentId>,
                             streams: map<StreamId, StreamId>)

  type Sessions = map<SessionId, Session>

  datatype JoinError =
    | CodeNotFound | SessionExpired | CodeAlreadyUsed
    | DuplicateTunnel(name: string) | UnauthorizedTunnel(name: string) | TargetMismatch(name: string)

  /** The sentence the relay answers a refused hello with (without the endpoints a mismatch spells out). */
  function RefusalText(e: JoinError): string {
    match e
    case CodeNotFound => "session code not found"
    case SessionExpired => "session has expired"
    case CodeAlreadyUsed => "session code has already been used"
    case DuplicateTunnel(name) => "agent offered duplicate tunnel `" + name + "`"
    case UnauthorizedTunnel(name) => "agent offered unauthorized tunnel `" + name + "`"
    case TargetMismatch(name) => "agent tunnel `" + name + "` does not match authorized target"
  }

  /** The requested time to live, but never less than the minimum. */
  function EffectiveTtl(requested: nat): (ttl: nat)
    ensures MIN_TTL <= ttl && requested <= ttl && ttl in {MIN_TTL, requested}
  {
    if requested < MIN_TTL then MIN_TTL else requested
  }

  function NewSession(code: SessionCode, device: Option<string>, allowed: seq<TunnelSpec>, requestedTtl: nat,
                      now: nat): Session {
    var ttl := EffectiveTtl(requestedTtl);
    Session(code, device, allowed, ttl, now + ttl, false, None, map[])
  }

  /** `find` over the allowed tunnels: the first of that name. */
  function FindTunnel(allowed: seq<TunnelSpec>, name: string): Option<TunnelSpec> {
    if |allowed| == 0 then None
    else if allowed[0].name == name then Some(allowed[0])
    else FindTunnel(allowed[1..], name)
  }

  lemma {:induction false} FindTunnelFirst(allowed: seq<TunnelSpec>, name: string)
    ensures FindTunnel(allowed, name).None? <==> forall i :: 0 <= i < |allowed| ==> allowed[i].name != name
    ensures FindTunnel(allowed, name).Some? ==>
              exists i :: 0 <= i < |allowed| && allowed[i].name == name && FindTunnel(allowed, name) == Some(allowed[i])
                          && forall j :: 0 <= j < i ==> allowed[j].name != name
  {
    if |allowed| > 0 {
      var rest := allowed[1..];
      FindTunnelFirst(rest, name);
      if allowed[0].name == name {
        assert FindTunnel(allowed, name) == Some(allowed[0]);
      } else if FindTunnel(rest, name).Some? {
        var i :| 0 <= i < |rest| && rest[i].name == name && FindTunnel(rest, name) == Some(rest[i])
                 && forall j :: 0 <= j < i ==> rest[j].name != name;
        assert allowed[i + 1] == rest[i];
        assert forall j :: 0 < j < i + 1 ==> allowed[j] == rest[j - 1];
      } else {
        assert forall i :: 0 < i < |allowed| ==> allowed[i] == rest[i - 1];
      }
    }
  }

  /** The first thing wrong with offer `i`, given the offers before it. */
  function OfferError(allowed: seq<TunnelSpec>, offers: seq<TunnelOffer>, i: nat): Option<JoinError>
    requires i < |offers|
  {
    var o := offers[i];
    if exists j :: 0 <= j < i && offers[j].name == o.name then Some(DuplicateTunnel(o.name))
    else
      match FindTunnel(allowed, o.name)
      case None => Some(UnauthorizedTunnel(o.name))
      case Some(t) =>
        if t.target.host != o.host || t.target.port != o.port then Some(TargetMismatch(o.name)) else None
  }

  /** The first error in the offers, in offer order. */
  function OffersError(allowed: seq<TunnelSpec>, offers: seq<TunnelOffer>): Option<JoinError> {
    if |offers| == 0 then None
    else
      var earlier := OffersError(allowed, offers[..|offers| - 1]);
      if earlier.Some? then earlier else OfferError(allowed, offers, |offers| - 1)
  }

  /** What an accepted list of offers is: names distinct, each the first allowed tunnel of its name. */
  ghost predicate OffersAuthorized(allowed: seq<TunnelSpec>, offers: seq<TunnelOffer>) {
    && (forall i, j :: 0 <= i < j < |offers| ==> offers[i].name != offers[j].name)
    && (forall i :: 0 <= i < |offers| ==>
          var t := FindTunnel(allowed, offers[i].name);
          t.Some? && t.value.target == TunnelEndpoint(offers[i].host, offers[i].port))
  }

  lemma {:induction false} OffersAccepted(allowed: seq<TunnelSpec>, offers: seq<TunnelOffer>)
    ensures OffersError(allowed, offers).None? <==> OffersAuthorized(allowed, offers)
    decreases |offers|
  {
    if |offers| > 0 {
      var init, n := offers[..|offers| - 1], |offers| - 1;
      OffersAccepted(allowed, init);
      if OffersAuthorized(allowed, offers) {
        assert forall i :: 0 <= i < n ==> init[i] == offers[i];
        assert OffersAuthorized(allowed, init);
      } else if OffersAuthorized(allowed, init) {
        assert forall i :: 0 <= i < n ==> init[i] == offers[i];
      }
    }
  }

  predicate NamedBefore(offers: seq<TunnelOffer>, i: nat)
    requires i < |offers|
  {
    exists j :: 0 <= j < i && offers[j].name == offers[i].name
  }

  /** Tunnel `k` is the first allowed one with the name of offer `o`. */
  predicate FirstFor(allowed: seq<TunnelSpec>, o: TunnelOffer, k: nat) {
    k < |allowed| && allowed[k].name == o.name && forall j :: 0 <= j < k ==> allowed[j].name != o.name
  }

  /** What is wrong with offer `i` when `e` is reported for it. */
  ghost predicate Offends(allowed: seq<TunnelSpec>, offers: seq<TunnelOffer>, i: nat, e: JoinError)
    requires i < |offers|
  {
    var o := offers[i];
    match e
    case DuplicateTunnel(name) => name == o.name && NamedBefore(offers, i)
    case UnauthorizedTunnel(name) =>
      name == o.name && !NamedBefore(offers, i) && forall k :: 0 <= k < |allowed| ==> allowed[k].name != o.name
    case TargetMismatch(name) =>
      name == o.name && !NamedBefore(offers, i)
      && exists k: nat :: FirstFor(allowed, o, k) && allowed[k].target != TunnelEndpoint(o.host, o.port)
    case _ => false
  }

  lemma OfferErrorMeaning(allowed: seq<TunnelSpec>, offers: seq<TunnelOffer>, i: nat, e: JoinError)
    requires i < |offers|
    ensures OfferError(allowed, offers, i) == Some(e) <==> Offends(allowed, offers, i, e)
  {
    var o := offers[i];
    FindTunnelFirst(allowed, o.name);
    if FindTunnel(allowed, o.name).Some? {
      var k :| 0 <= k < |allowed| && FirstFor(allowed, o, k) && FindTunnel(allowed, o.name) == Some(allowed[k]);
      forall other: nat | FirstFor(allowed, o, other) ensures other == k { OnlyFirst(allowed, o, k, other); }
    }
  }

  lemma OnlyFirst(allowed: seq<TunnelSpec>, o: TunnelOffer, k: nat, other: nat)
    requires FirstFor(allowed, o, k) && FirstFor(allowed, o, other)
    ensures other == k
  {
  }

  lemma OfferErrorOfPrefix(allowed: seq<TunnelSpec>, offers: seq<TunnelOffer>, n: nat, i: nat)
    requires i < n <= |offers|
    ensures OfferError(allowed, offers[..n], i) == OfferError(allowed, offers, i)
  {
    assert forall j :: 0 <= j <= i ==> offers[..n][j] == offers[j];
  }

  /** The reported error is that of the first offer with one: all offers before it are authorised. */
  lemma {:induction false} FirstOfferErrorWins(allowed: seq<TunnelSpec>, offers: seq<TunnelOffer>, e: JoinError)
    ensures OffersError(allowed, offers) == Some(e) <==>
              exists i: nat :: i < |offers| && OffersAuthorized(allowed, offers[..i]) && Offends(allowed, offers, i, e)
    decreases |offers|
  {
    if |offers| > 0 {
      var init, n := offers[..|offers| - 1], |offers| - 1;
      FirstOfferErrorWins(allowed, init, e);
      OffersAccepted(allowed, init);
      OfferErrorMeaning(allowed, offers, n, e);
      forall i: nat | i < n
        ensures init[..i] == offers[..i] && (Offends(allowed, init, i, e) <==> Offends(allowed, offers, i, e))
      {
        OfferErrorOfPrefix(allowed, offers, n, i);
        OfferErrorMeaning(allowed, offers, i, e);
        OfferErrorMeaning(allowed, init, i, e);
      }
    }
  }

  /** `sessions.values().find(|s| s.code == code)`, in any iteration order. */
  ghost predicate FoundByCode(sessions: Sessions, code: SessionCode, found: Option<SessionId>) {
    match found
    case Some(sid) => sid in sessions && sessions[sid].code == code
    case None => forall sid :: sid in sessions ==> sessions[sid].code != code
  }

  /** `sessions.values().find_map(|s| s.streams.get(id))`, in any iteration order. */
  ghost predicate FoundStream(sessions: Sessions, s: StreamId, found: Option<SessionId>) {
    match found
    case Some(sid) => sid in sessions && s in sessions[sid].streams
    case None => forall sid :: sid in sessions ==> s !in sessions[sid].streams
  }

  function JoinRefusal(session: Session, now: nat, offers: seq<TunnelOffer>): Option<JoinError> {
    if session.expiresAt <= now then Some(SessionExpired)
    else if session.consumed then Some(CodeAlreadyUsed)
    else OffersError(session.allowed, offers)
  }

  /** A hello may use the session's code: in time, for the first time, with authorised offers. */
  ghost predicate MayJoin(session: Session, now: nat, offers: seq<TunnelOffer>) {
    now < session.expiresAt && !session.consumed && OffersAuthorized(session.allowed, offers)
  }

  /** Why a hello that names the session's code is refused: the first of the conditions that fails. */
  ghost predicate JoinFails(session: Session, now: nat, offers: seq<TunnelOffer>, e: JoinError) {
    match e
    case CodeNotFound => false
    case SessionExpired => session.expiresAt <= now
    case CodeAlreadyUsed => now < session.expiresAt && session.consumed
    case _ =>
      now < session.expiresAt && !session.consumed
      && exists i: nat :: i < |offers| && OffersAuthorized(session.allowed, offers[..i])
                          && Offends(session.allowed, offers, i, e)
  }

  /** The refusal is exactly the first condition that fails, and there is none exactly for a hello that may join. */
  lemma JoinExactly(session: Session, now: nat, offers: seq<TunnelOffer>)
    ensures JoinRefusal(session, now, offers).None? <==> MayJoin(session, now, offers)
    ensures forall e :: JoinRefusal(session, now, offers) == Some(e) <==> JoinFails(session, now, offers, e)
  {
    OffersAccepted(session.allowed, offers);
    forall e ensures JoinRefusal(session, now, offers) == Some(e) <==> JoinFails(session, now, offers, e) {
      FirstOfferErrorWins(session.allowed, offers, e);
    }
  }

  /** The session after its code was used: only its label, if the hello brings one, and its mark change. */
  predicate Consumes(was: Session, x: Session, device: Option<string>) {
    && x.consumed && (device.Some? ==> x.device == device) && (device.None? ==> x.device == was.device)
    && x.code == was.code && x.allowed == was.allowed && x.ttl == was.ttl && x.expiresAt == was.expiresAt
    && x.agent == was.agent && x.streams == was.streams
  }

  /** A session as it is created: unused, without an agent and without streams. */
  predicate IsNew(x: Session, code: SessionCode, device: Option<string>, allowed: seq<TunnelSpec>) {
    && x.code == code && x.device == device && x.allowed == allowed
    && !x.consumed && x.agent.None? && x.streams == map[]
  }

  function Joined(session: Session, device: Option<string>): Session {
    session.(device := if device.Some? then device else session.device, consumed := true)
  }

  datatype OpenError = SessionMissing | OpenExpired | TargetNotAllowed | AgentMissing

  /** The operator handler's first lock section: the agent to use, or why the stream is refused. */
  function OpenRefusal(sessions: Sessions, sid: SessionId, target: string, now: nat): Option<OpenError> {
    if sid !in sessions then Some(SessionMissing)
    else if sessions[sid].expiresAt <= now then Some(OpenExpired)
    else if FindTunnel(sessions[sid].allowed, target).None? then Some(TargetNotAllowed)
    else if sessions[sid].agent.None? then Some(AgentMissing)
    else None
  }

  /** Some allowed tunnel of the session, wherever it stands in the list, has the name. */
  ghost predicate Allows(session: Session, target: string) {
    exists i :: 0 <= i < |session.allowed| && session.allowed[i].name == target
  }

  /** A stream to `target` may be opened: in time, for any allowed tunnel, while an agent is attached. */
  ghost predicate MayOpen(sessions: Sessions, sid: SessionId, target: string, now: nat) {
    sid in sessions && now < sessions[sid].expiresAt && Allows(sessions[sid], target) && sessions[sid].agent.Some?
  }

  /** Why it may not: the first of the conditions that fails. */
  ghost predicate OpenFails(sessions: Sessions, sid: SessionId, target: string, now: nat, e: OpenError) {
    match e
    case SessionMissing => sid !in sessions
    case OpenExpired => sid in sessions && sessions[sid].expiresAt <= now
    case TargetNotAllowed => sid in sessions && now < sessions[sid].expiresAt && !Allows(sessions[sid], target)
    case AgentMissing =>
      sid in sessions && now < sessions[sid].expiresAt && Allows(sessions[sid], target) && sessions[sid].agent.None?
  }

  /** A stream is refused exactly for the first condition that fails, and otherwise admitted. */
  lemma OpenExactly(sessions: Sessions, sid: SessionId, target: string, now: nat)
    ensures OpenRefusal(sessions, sid, target, now).None? <==> MayOpen(sessions, sid, target, now)
    ensures forall e ::
              OpenRefusal(sessions, sid, target, now) == Some(e) <==> OpenFails(sessions, sid, target, now, e)
  {
    if sid in sessions {
      FindTunnelFirst(sessions[sid].allowed, target);
    }
  }

  function WithStream(sessions: Sessions, sid: SessionId, s: StreamId): Sessions
    requires sid in sessions
  {
    sessions[sid := sessions[sid].(streams := sessions[sid].streams[s := s])]
  }

  /** The removal loop over every session. */
  function WithoutStream(sessions: Sessions, s: StreamId): Sessions {
    map sid | sid in sessions :: sessions[sid].(streams := sessions[sid].streams - {s})
  }

  function WithAgent(sessions: Sessions, sid: SessionId, a: AgentId): Sessions
    requires sid in sessions
  {
    sessions[sid := sessions[sid].(agent := Some(a))]
  }

  function WithoutAgent(sessions: Sessions, sid: SessionId): Sessions {
    if sid in sessions then sessions[sid := sessions[sid].(agent := None, streams := map[])] else sessions
  }

  const AGENT_DISCONNECTED := "agent disconnected"
  const SESSION_ENDED := "session ended by operator"

  /** Each operator channel after every stream of a session was offered its own error. */
  function Notified(toOp: map<StreamId, Pipe>, streams: map<StreamId, StreamId>, text: string): map<StreamId, Pipe> {
    map s | s in toOp :: if s in streams then toOp[s].TrySend(StreamError(s, text)) else toOp[s]
  }
}
