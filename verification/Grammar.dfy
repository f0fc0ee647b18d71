/** What the per-stream grammars mean as words, and that every run keeps them. */
module Grammar {
  import opened Wire
  import opened AgentProcess
  import opened OperatorStream
  import opened RelaySystem
  import opened RelayInvariant
  import opened Delivery

  /** The messages of a log that are about one stream, in order. */
  function OnStream(log: seq<WireMessage>, s: StreamId): seq<WireMessage> {
    if |log| == 0 then []
    else
      var m := log[|log| - 1];
      OnStream(log[..|log| - 1], s) + (if About(m, s) then [m] else [])
  }

  predicate AllData(word: seq<WireMessage>) {
    forall k :: 0 <= k < |word| ==> word[k].StreamData?
  }

  predicate DataThenError(word: seq<WireMessage>) {
    |word| > 0 && word[|word| - 1].StreamError? && AllData(word[..|word| - 1])
  }

  predicate EndsInClose(word: seq<WireMessage>) {
    |word| > 0 && word[|word| - 1].StreamClose?
    && (AllData(word[..|word| - 1]) || DataThenError(word[..|word| - 1]))
  }

  /** A prefix of `Data* [Error] Close`. */
  predicate UpWord(word: seq<WireMessage>) {
    AllData(word) || DataThenError(word) || EndsInClose(word)
  }

  lemma WordGrows(word: seq<WireMessage>, m: WireMessage)
    ensures AllData(word + [m]) <==> AllData(word) && m.StreamData?
    ensures DataThenError(word + [m]) <==> AllData(word) && m.StreamError?
    ensures EndsInClose(word + [m]) <==> (AllData(word) || DataThenError(word)) && m.StreamClose?
  {
    assert (word + [m])[..|word|] == word && (word + [m])[|word|] == m;
    assert forall k :: 0 <= k < |word| ==> (word + [m])[k] == word[k];
  }

  /** The phase automaton accepts exactly those words, and its state says which kind. */
  lemma {:induction false} UpPhaseMeaning(log: seq<WireMessage>, s: StreamId)
    ensures UpPhaseOf(log, s).Flowing? <==> AllData(OnStream(log, s))
    ensures UpPhaseOf(log, s).Failed? <==> DataThenError(OnStream(log, s))
    ensures UpPhaseOf(log, s).Closed? <==> EndsInClose(OnStream(log, s))
    ensures UpPhaseOf(log, s) != Illegal <==> UpWord(OnStream(log, s))
    decreases |log|
  {
    if |log| > 0 {
      var init, m := log[..|log| - 1], log[|log| - 1];
      UpPhaseMeaning(init, s);
      if About(m, s) {
        WordGrows(OnStream(init, s), m);
      } else {
        assert OnStream(log, s) == OnStream(init, s);
      }
    }
  }

  /** Begins with the one `OpenStream` it holds, if it is not empty. */
  predicate DownWord(word: seq<WireMessage>) {
    |word| > 0 ==> word[0].OpenStream? && forall k :: 0 < k < |word| ==> !word[k].OpenStream?
  }

  lemma {:induction false} OpensMeaning(log: seq<WireMessage>, s: StreamId)
    requires DownGrammar(log)
    ensures s in Opens(log) <==> |OnStream(log, s)| > 0
    ensures DownWord(OnStream(log, s))
    decreases |log|
  {
    if |log| > 0 {
      var init, m := log[..|log| - 1], log[|log| - 1];
      OpensMeaning(init, s);
      var word := OnStream(init, s);
      if !About(m, s) {
        assert OnStream(log, s) == word;
      }
    }
  }

  lemma DownWordGrows(word: seq<WireMessage>, m: WireMessage)
    ensures DownWord(word + [m]) <==> DownWord(word) && (m.OpenStream? <==> |word| == 0)
  {
    assert forall k :: 0 <= k < |word| ==> (word + [m])[k] == word[k];
    assert (word + [m])[|word|] == m;
  }

  /** What the log says of each stream is a down-word. */
  ghost predicate DownWords(log: seq<WireMessage>) {
    forall s :: DownWord(OnStream(log, s))
  }

  lemma {:induction false} DownWordsMakeGrammar(log: seq<WireMessage>)
    requires DownWords(log)
    ensures DownGrammar(log)
    decreases |log|
  {
    if |log| > 0 {
      var init, m := log[..|log| - 1], log[|log| - 1];
      forall s ensures DownWord(OnStream(init, s)) {
        assert DownWord(OnStream(log, s));
        if About(m, s) { DownWordGrows(OnStream(init, s), m); } else { assert OnStream(log, s) == OnStream(init, s); }
      }
      DownWordsMakeGrammar(init);
      match StreamOf(m) {
        case None =>
        case Some(s) =>
          assert DownWord(OnStream(log, s));
          assert About(m, s) && OnStream(log, s) == OnStream(init, s) + [m];
          OpensMeaning(init, s);
          DownWordGrows(OnStream(init, s), m);
          assert DownMessageOk(m, Opens(init));
      }
    }
  }

  /** The relay's grammar is exactly: per stream, one `OpenStream`, and first. */
  lemma DownGrammarMeaning(log: seq<WireMessage>)
    ensures DownGrammar(log) <==> DownWords(log)
  {
    if DownGrammar(log) {
      forall s ensures DownWord(OnStream(log, s)) { OpensMeaning(log, s); }
    } else if DownWords(log) {
      DownWordsMakeGrammar(log);
    }
  }

  /** In every reachable state, all an agent ever sent about a stream is a prefix of `Data* [Error] Close`. */
  lemma AgentOutputGrammar(w: World, a: AgentId, s: StreamId)
    requires Reachable(w) && HasAgent(w, a)
    ensures UpWord(OnStream(w.agents[a].up.Sent(), s))
  {
    NeverIllegal(w, a, s);
    UpPhaseMeaning(w.agents[a].up.Sent(), s);
  }

  lemma NeverIllegal(w: World, a: AgentId, s: StreamId)
    requires Reachable(w) && HasAgent(w, a)
    ensures UpPhaseOf(w.agents[a].up.Sent(), s) != Illegal
  {
    ReachableInv(w);
    assert AgInv(w, a);
    PhaseIsLegal(w.agents[a], w.toAgent[a].delivered, s);
  }

  lemma PhaseIsLegal(ag: Agent, got: seq<WireMessage>, s: StreamId)
    requires AgentOk(ag, got)
    ensures UpPhaseOf(ag.up.Sent(), s) != Illegal
  {
    assert UpPhaseOk(ag, s);
  }

  /** An agent never speaks of a stream it was not asked to open. */
  lemma AgentSpeaksOfItsOwn(w: World, a: AgentId, s: StreamId)
    requires Reachable(w) && HasAgent(w, a) && OnStream(w.agents[a].up.Sent(), s) != []
    ensures s in w.ops && w.ops[s].agent == Some(a) && w.ops[s].started
  {
    ReachableInv(w);
    assert AgInv(w, a);
    if s !in Opens(w.toAgent[a].delivered) {
      SentByNobody(w.agents[a], w.toAgent[a].delivered, s);
      OnStreamOfOthers(w.agents[a].up.Sent(), s);
    } else {
      OpensOfDelivered(w.toAgent[a], s);
      AskedStarted(w.ops, a, w.toAgent[a].Sent(), s);
    }
  }

  lemma {:induction false} OnStreamOfOthers(log: seq<WireMessage>, s: StreamId)
    requires forall m :: m in log ==> !About(m, s)
    ensures OnStream(log, s) == []
    decreases |log|
  {
    if |log| > 0 {
      assert log[|log| - 1] in log;
      OnStreamOfOthers(log[..|log| - 1], s);
    }
  }

  /** In every reachable state, all the relay ever sent an agent about a stream begins with its only
      `OpenStream`: no data, close or error before it, and no second one. */
  lemma RelayOutputGrammar(w: World, a: AgentId, s: StreamId)
    requires Reachable(w) && HasAgent(w, a)
    ensures DownWord(OnStream(w.toAgent[a].Sent(), s))
  {
    ReachableInv(w);
    assert AgInv(w, a);
    OpensMeaning(w.toAgent[a].Sent(), s);
  }
}
