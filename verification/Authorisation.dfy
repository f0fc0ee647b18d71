/** Whatever an agent dials for a stream is the target its session's creator allowed under that name. */
module Authorisation {
  import opened Wire
  import opened AgentProcess
  import opened OperatorStream
  import opened RelayRules
  import opened RelaySystem
  import opened RelayInvariant
  import opened Delivery

  /** An entry of the collected table comes from some spec of that name; every spec's name is in it. */
  lemma {:induction false} ExposeMapEntry(specs: seq<TunnelSpec>, name: string)
    ensures name in ExposeMap(specs) <==> exists i :: 0 <= i < |specs| && specs[i].name == name
    ensures name in ExposeMap(specs) ==>
              exists i :: 0 <= i < |specs| && specs[i].name == name && specs[i].target == ExposeMap(specs)[name]
                          && forall j :: i < j < |specs| ==> specs[j].name != name
    decreases |specs|
  {
    if |specs| > 0 {
      var init, n := specs[..|specs| - 1], |specs| - 1;
      ExposeMapEntry(init, name);
      assert forall i :: 0 <= i < n ==> init[i] == specs[i];
      if specs[n].name == name {
        assert specs[n].target == ExposeMap(specs)[name];
      } else if name in ExposeMap(init) {
        var i :| 0 <= i < n && init[i].name == name && init[i].target == ExposeMap(init)[name]
                 && forall j :: i < j < n ==> init[j].name != name;
        assert specs[i].name == name && specs[i].target == ExposeMap(specs)[name];
      }
    }
  }

  /** For specs of distinct names the agent's last-wins table and a first-wins search agree. */
  lemma LastWinsIsFirstWins(specs: seq<TunnelSpec>, name: string)
    requires forall i, j :: 0 <= i < j < |specs| ==> specs[i].name != specs[j].name
    ensures name in ExposeMap(specs) <==> FindTunnel(specs, name).Some?
    ensures name in ExposeMap(specs) ==> FindTunnel(specs, name).value.target == ExposeMap(specs)[name]
  {
    ExposeMapEntry(specs, name);
    FindTunnelFirst(specs, name);
  }

  /** Accepted offers: the agent's table holds exactly the first allowed target of each offered name. */
  lemma TableIsAuthorised(allowed: seq<TunnelSpec>, specs: seq<TunnelSpec>, name: string)
    requires OffersAuthorized(allowed, Offers(specs)) && name in ExposeMap(specs)
    ensures FindTunnel(allowed, name).Some?
    ensures FindTunnel(allowed, name).value.target == ExposeMap(specs)[name]
  {
    ExposeMapEntry(specs, name);
    var i :| 0 <= i < |specs| && specs[i].name == name && specs[i].target == ExposeMap(specs)[name]
             && forall j :: i < j < |specs| ==> specs[j].name != name;
    assert Offers(specs)[i].name == name;
  }

  /** `e` is what the creator of the stream's session allowed under the name the operator asked for. */
  ghost predicate AllowedEndpoint(w: World, s: StreamId, a: AgentId, target: string, e: TunnelEndpoint) {
    && s in w.ops && w.ops[s].agent == Some(a) && w.ops[s].target == target
    && w.ops[s].session in w.births
    && var b := w.births[w.ops[s].session];
    && b.usedBy == Some(a)
    && FindTunnel(b.allowed, target).Some? && FindTunnel(b.allowed, target).value.target == e
  }

  lemma OpenedIsAllowed(w: World, a: AgentId, s: StreamId, target: string, e: TunnelEndpoint)
    requires Reachable(w) && HasAgent(w, a) && EndpointFor(w.agents[a], w.toAgent[a].delivered, s, target, e)
    ensures AllowedEndpoint(w, s, a, target, e)
  {
    ReachableInv(w);
    assert AgInv(w, a);
    assert OpenStream(s, target) in w.toAgent[a].Sent();
    assert StartedAt(w.ops, s, a, target);
    assert OpInv(w, s);
    TableIsAuthorised(w.births[w.ops[s].session].allowed, w.agents[a].exposes, target);
  }

  /** Whenever an agent is dialling, the endpoint is the first allowed target of the requested name. */
  lemma DialIsAuthorised(w: World, a: AgentId)
    requires Reachable(w) && HasAgent(w, a) && w.agents[a].pc.Dialing?
    ensures AllowedEndpoint(w, w.agents[a].pc.stream, a, w.agents[a].pc.target, w.agents[a].pc.endpoint)
  {
    ReachableInv(w);
    assert AgInv(w, a);
    assert PcOk(w.agents[a], w.toAgent[a].delivered);
    OpenedIsAllowed(w, a, w.agents[a].pc.stream, w.agents[a].pc.target, w.agents[a].pc.endpoint);
  }

  /** So is the endpoint of every target connection that exists, whatever has happened since. */
  lemma ConnectionIsAuthorised(w: World, a: AgentId, s: StreamId)
    requires Reachable(w) && HasAgent(w, a) && s in w.agents[a].locals
    ensures s in w.ops && AllowedEndpoint(w, s, a, w.ops[s].target, w.agents[a].locals[s].endpoint)
  {
    ReachableInv(w);
    assert AgInv(w, a);
    var l := w.agents[a].locals[s];
    assert LocalOk(w.agents[a], w.toAgent[a].delivered, s);
    var target :| EndpointFor(w.agents[a], w.toAgent[a].delivered, s, target, l.endpoint);
    OpenedIsAllowed(w, a, s, target, l.endpoint);
  }

  /** Every stream the relay ever asks an agent to open names an allowed tunnel, whether or not the
      agent exposes it. */
  lemma OpenedTargetWasAllowed(w: World, a: AgentId, s: StreamId, target: string)
    requires Reachable(w) && HasAgent(w, a) && OpenStream(s, target) in w.toAgent[a].Sent()
    ensures s in w.ops && w.ops[s].session in w.births
    ensures FindTunnel(w.births[w.ops[s].session].allowed, target).Some?
  {
    ReachableInv(w);
    assert AgInv(w, a);
    assert StartedAt(w.ops, s, a, target);
    assert OpInv(w, s);
  }
}
