/** The cache's operations are timed by the clock, which only moves forward. */
module OperationTimes {
  import opened Http
  import opened Session
  import opened Conservation
  import opened SessionTheorems
  import Lru = RecencyList
  import Trace = CacheTraces

  /** Operations are in the order of their times, and none is later than now. */
  ghost predicate Timed(ops: seq<Trace.Op>, now: int) {
    && (forall k :: 0 <= k < |ops| ==> ops[k].now <= now)
    && (forall j, k :: 0 <= j < k < |ops| ==> ops[j].now <= ops[k].now)
  }

  /** At most one operation is added, with the time of the clock, which does not move back. */
  ghost predicate TimedStep(s: State, t: State) {
    && s.now <= t.now
    && (|| t.ops == s.ops
        || (|t.ops| == |s.ops| + 1 && t.ops[..|s.ops|] == s.ops && t.ops[|s.ops|].now == s.now))
  }

  lemma CountsAreTimed(c: Config, s: State, t: State, i: nat)
    requires Counts(c, s, t, i)
    ensures TimedStep(s, t)
  {
  }

  lemma StepIsTimed(c: Config, s: State, a: Action)
    requires Enabled(c, s, a)
    ensures TimedStep(s, Apply(c, s, a))
  {
    if ByOneSession(a) {
      ActionCounts(c, s, a);
      CountsAreTimed(c, s, Apply(c, s, a), a.session);
    }
  }

  lemma TimedAfter(s: State, t: State)
    requires TimedStep(s, t) && Timed(s.ops, s.now)
    ensures Timed(t.ops, t.now)
  {
    if t.ops != s.ops {
      assert forall k :: 0 <= k < |s.ops| ==> t.ops[k] == s.ops[k];
    }
  }

  lemma {:induction false} RunIsTimed(c: Config, s: State, actions: seq<Action>)
    requires Legal(c, s, actions) && Timed(s.ops, s.now)
    ensures Timed(After(c, s, actions).ops, After(c, s, actions).now)
  {
    if actions != [] {
      var n := |actions| - 1;
      RunIsTimed(c, s, actions[..n]);
      LastIsApply(c, s, actions);
      StepIsTimed(c, After(c, s, actions[..n]), actions[n]);
      TimedAfter(After(c, s, actions[..n]), After(c, s, actions));
    }
  }

  /** In every reachable state the history of the cache is in the order of the clock. */
  lemma HistoryIsTimed(c: Config, s: State)
    requires Reachable(c, s)
    ensures Timed(s.ops, s.now)
  {
    var actions :| Legal(c, Init(c), actions) && After(c, Init(c), actions) == s;
    RunIsTimed(c, Init(c), actions);
  }

  /** So a response from the cache was fetched and stored less than the time to live before it was looked up, by the clock. */
  lemma CachedAnswerIsYoung(c: Config, s: State, r: nat) returns (k: nat)
    requires Reachable(c, s) && r < |s.log| && s.log[r].answers != [] && s.log[r].answers[0].source.FromCache?
    ensures var n := s.log[r].answers[0].source.lookup;
            && k < n < |s.ops| && s.ops[k].StoreOp? && s.ops[k].key == s.log[r].request.target
            && s.ops[k].now <= s.ops[n].now < s.ops[k].now + c.ttl && s.ops[n].now <= s.now
  {
    HistoryIsTimed(c, s);
    var q, sent;
    k, q, sent := CachedAnswer(c, s, r);
    q, sent := StoreExplained(c, s, k);
  }

  /** A store makes an entry that expires the time to live after the moment it is made. */
  lemma StoredEntryExpires(c: Config, s: State, i: nat)
    requires Reachable(c, s) && i < |s.sessions| && s.sessions[i].pc.Storing?
    requires s.sessions[i].pc.shouldCache && CacheableResponse(s.sessions[i].pc.response)
    ensures var key := s.sessions[i].request.target;
            Lru.Lookup(StoreStep(c, s, i).cache, key) == Some(Lru.Entry(key, s.sessions[i].pc.response, s.now + c.ttl))
  {
    assert s.cache == Trace.Run(c.capacity, c.ttl, [], s.ops) by { ReachableInv(c, s); }
    Trace.RunKeepsValid(c.capacity, c.ttl, [], s.ops);
    var key := s.sessions[i].request.target;
    Lru.LookupAfterPut(s.cache, c.capacity, c.ttl, key, s.sessions[i].pc.response, s.now, key);
  }
}
