/**
 * Lookup and join are separate critical sections, so one fetch per key and time to live is not guaranteed: for every
 * configuration, cacheable request and storable response there is a run in which a second flight for the same key is
 * about to start while the cache holds a live entry for it.
 */
module LateMissRun {
  import opened Http
  import opened Session
  import opened SessionTheorems
  import Lru = RecencyList
  import Pool = UpstreamPools
  import Px = Proxying

  /** A set of states that no step leaves, such as the reachable ones. */
  ghost predicate NeverLeaves(c: Config, reach: iset<State>) {
    forall s, a :: s in reach && Enabled(c, s, a) ==> Apply(c, s, a) in reach
  }

  lemma Move(c: Config, reach: iset<State>, s: State, i: nat) returns (t: State)
    requires NeverLeaves(c, reach) && s in reach && Sized(c, s) && i < |s.sessions| && CanAdvance(c, s.sessions[i])
    ensures t == AdvanceStep(c, s, i, "") && t in reach
  {
    t := Apply(c, s, Advance(i, ""));
  }

  /** Two sessions have read a request each. */
  lemma TwoReaders(c: Config, reach: iset<State>, q: Request, r: Request) returns (s: State)
    requires ValidConfig(c) && NeverLeaves(c, reach) && Init(c) in reach
    ensures s in reach && Sized(c, s)
    ensures s.sessions == [Session(Counting, 0, q, []), Session(Counting, 1, r, [])]
    ensures s.log == [RequestRecord(q, 0, []), RequestRecord(r, 1, [])] && s.records == []
    ensures s.now == 0 && s.cache == [] && s.flights == map[] && s.pool == InitPool(c) && s.ops == []
  {
    s := Init(c);
    s := Apply(c, s, AcceptSession);
    s := Apply(c, s, AcceptSession);
    s := Apply(c, s, ReadRequest(0, q));
    s := Apply(c, s, ReadRequest(1, r));
  }

  /** A session counts its request, looks up an empty cache and counts the miss. */
  lemma ToJoining(c: Config, reach: iset<State>, s: State, i: nat) returns (t: State)
    requires NeverLeaves(c, reach) && s in reach && Sized(c, s) && i < |s.sessions| && s.sessions[i].pc.Counting?
    requires CacheRoute(s.sessions[i].request) && s.cache == []
    ensures t in reach && Sized(c, t)
    ensures t.sessions == s.sessions[i := s.sessions[i].(pc := Joining(|s.ops|))]
    ensures t.now == s.now && t.cache == [] && t.flights == s.flights && t.pool == s.pool
    ensures t.log == s.log && t.records == s.records
  {
    t := Move(c, reach, s, i);
    t := Move(c, reach, t, i);
    t := Move(c, reach, t, i);
  }

  /** A session leads a new flight. */
  lemma ToSelecting(c: Config, reach: iset<State>, s: State, i: nat) returns (t: State)
    requires NeverLeaves(c, reach) && s in reach && Sized(c, s) && i < |s.sessions| && s.sessions[i].pc.Joining?
    requires s.sessions[i].request.target !in s.flights
    ensures t in reach && Sized(c, t)
    ensures t.sessions == s.sessions[i := s.sessions[i].(pc := Selecting(Some(|s.records|)))]
    ensures t.now == s.now && t.cache == s.cache && t.pool == s.pool
    ensures t.flights == s.flights[s.sessions[i].request.target := []] && t.log == s.log
    ensures s.sessions[i].request.target in t.current && t.current[s.sessions[i].request.target] == |s.records|
    ensures |t.records| == |s.records| + 1 && t.records[|s.records|].opener == s.sessions[i].id
  {
    t := Move(c, reach, s, i);
    assert t == JoinStep(s, i) && t.sessions[i].pc == LeaderJoined(|s.records|);
    t := Move(c, reach, t, i);
  }

  /** It selects an upstream. */
  lemma ToLaunching(c: Config, reach: iset<State>, s: State, i: nat) returns (t: State, fetch: Fetch)
    requires NeverLeaves(c, reach) && s in reach && Sized(c, s) && i < |s.sessions| && s.sessions[i].pc.Selecting?
    requires Pool.Choice(s.pool).Some?
    ensures t in reach && Sized(c, t) && fetch.upstream < |c.endpoints|
    ensures t.sessions == s.sessions[i := s.sessions[i].(pc := Launching(s.sessions[i].pc.lead, fetch, CountFetch))]
    ensures t.now == s.now && t.cache == s.cache && t.flights == s.flights && t.log == s.log && t.records == s.records
  {
    fetch := Fetch(|s.poolOps|, Pool.Choice(s.pool).value, []);
    t := Move(c, reach, s, i);
    assert t == SelectStep(c, s, i);
  }

  /** One of the three counting steps of a launch. */
  lemma LaunchOnce(c: Config, reach: iset<State>, s: State, i: nat) returns (t: State)
    requires NeverLeaves(c, reach) && s in reach && Sized(c, s) && i < |s.sessions| && s.sessions[i].pc.Launching?
    requires s.sessions[i].pc.fetch.upstream < |c.endpoints|
    ensures t in reach && Sized(c, t)
    ensures t.sessions == s.sessions[i := s.sessions[i].(pc := LaunchStep(c, s, i).sessions[i].pc)]
    ensures t.now == s.now && t.cache == s.cache && t.flights == s.flights && t.log == s.log && t.records == s.records
  {
    t := Move(c, reach, s, i);
    assert t == LaunchStep(c, s, i);
  }

  /** It counts the fetch and starts the proxy. */
  lemma ToFetching(c: Config, reach: iset<State>, s: State, i: nat) returns (t: State, p: Px.Proxy)
    requires NeverLeaves(c, reach) && s in reach && Sized(c, s) && i < |s.sessions|
    requires s.sessions[i].pc.Launching? && s.sessions[i].pc.stage == CountFetch && s.sessions[i].pc.fetch.upstream < |c.endpoints|
    ensures t in reach && Sized(c, t)
    ensures t.sessions == s.sessions[i := s.sessions[i].(pc := Fetching(s.sessions[i].pc.lead, s.sessions[i].pc.fetch, p))]
    ensures p.Pending? && p.phase == Px.Resolving
    ensures p.clientVersion == s.sessions[i].request.version && p.clientKeepAlive == s.sessions[i].request.keepAlive
    ensures t.now == s.now && t.cache == s.cache && t.flights == s.flights && t.log == s.log && t.records == s.records
  {
    p := Px.Start(s.sessions[i].request, c.endpoints[s.sessions[i].pc.fetch.upstream]);
    t := LaunchOnce(c, reach, s, i);
    t := LaunchOnce(c, reach, t, i);
    t := LaunchOnce(c, reach, t, i);
  }

  /** The upstream answers with `r`. */
  lemma ToFetched(c: Config, reach: iset<State>, s: State, i: nat, r: Response) returns (t: State)
    requires NeverLeaves(c, reach) && s in reach && Sized(c, s) && i < |s.sessions|
    requires s.sessions[i].pc.Fetching? && s.sessions[i].pc.proxy.Pending? && s.sessions[i].pc.proxy.phase == Px.Resolving
    ensures t in reach && Sized(c, t) && |t.sessions| == |s.sessions| && t.sessions[i].pc.Fetched?
    ensures var Fetching(lead, _, p) := s.sessions[i].pc;
            t == At(s, i, Fetched(lead, t.sessions[i].pc.fetch, Px.Returned(r, p.clientVersion, p.clientKeepAlive)))
  {
    var ok := Px.Event(Px.NoError, r);
    t := Apply(c, s, UpstreamEvent(i, ok));
    t := Apply(c, t, UpstreamEvent(i, ok));
    t := Apply(c, t, UpstreamEvent(i, ok));
    t := Apply(c, t, UpstreamEvent(i, ok));
    assert t.sessions == s.sessions[i := t.sessions[i]];
  }

  /** The result is stored, and the flight closes. */
  lemma ToReleased(c: Config, reach: iset<State>, s: State, i: nat) returns (t: State)
    requires NeverLeaves(c, reach) && s in reach && Sized(c, s) && i < |s.sessions|
    requires s.sessions[i].pc.Fetched? && s.sessions[i].pc.lead.Some? && CacheableResponse(s.sessions[i].pc.response)
    ensures t in reach && Sized(c, t) && |t.sessions| == |s.sessions| && t.now == s.now && t.log == s.log
    ensures forall j :: 0 <= j < |s.sessions| && j != i ==> t.sessions[j] == s.sessions[j]
    ensures var key := s.sessions[i].request.target;
            && t.cache == Lru.Put(s.cache, c.capacity, c.ttl, key, s.sessions[i].pc.response, s.now)
            && t.flights == s.flights - {key}
  {
    t := Move(c, reach, s, i);
    t := Move(c, reach, t, i);
    t := Move(c, reach, t, i);
  }

  /** A joining session goes all the way to a stored result. */
  lemma JoinedToReleased(c: Config, reach: iset<State>, s: State, i: nat, r: Response) returns (t: State)
    requires NeverLeaves(c, reach) && s in reach && Sized(c, s) && i < |s.sessions| && s.sessions[i].pc.Joining?
    requires s.sessions[i].request.target !in s.flights && Pool.Choice(s.pool).Some?
    requires var q := s.sessions[i].request; CacheableResponse(Px.Returned(r, q.version, q.keepAlive))
    ensures t in reach && Sized(c, t) && |t.sessions| == |s.sessions| && t.now == s.now && t.log == s.log
    ensures forall j :: 0 <= j < |s.sessions| && j != i ==> t.sessions[j] == s.sessions[j]
    ensures var q := s.sessions[i].request;
            && t.cache == Lru.Put(s.cache, c.capacity, c.ttl, q.target, Px.Returned(r, q.version, q.keepAlive), s.now)
            && t.flights == s.flights
  {
    var fetch, p;
    t := ToSelecting(c, reach, s, i);
    t, fetch := ToLaunching(c, reach, t, i);
    t, p := ToFetching(c, reach, t, i);
    t := ToFetched(c, reach, t, i, r);
    t := ToReleased(c, reach, t, i);
  }

  lemma LateMissIn(c: Config, reach: iset<State>, q: Request, r: Response) returns (s: State)
    requires ValidConfig(c) && NeverLeaves(c, reach) && Init(c) in reach
    requires CacheRoute(q) && CacheableResponse(Px.Returned(r, q.version, q.keepAlive))
    ensures s in reach && |s.sessions| == 2 && s.sessions[1].pc.Joining? && s.sessions[1].request == q
    ensures q.target !in s.flights
    ensures s.cache == [Lru.Entry(q.target, Px.Returned(r, q.version, q.keepAlive), s.now + c.ttl)]
  {
    s := TwoReaders(c, reach, q, q);
    s := ToJoining(c, reach, s, 0);
    s := ToJoining(c, reach, s, 1);
    Pool.ChoiceIsNearest(s.pool);
    assert s.pool.healthy[0];
    s := JoinedToReleased(c, reach, s, 0, r);
  }

  /** The late miss does occur, beside an entry with its whole time to live ahead of it: unexpired, if that is positive. */
  lemma LateMissHappens(c: Config, q: Request, r: Response) returns (s: State)
    requires ValidConfig(c) && CacheRoute(q) && CacheableResponse(Px.Returned(r, q.version, q.keepAlive))
    ensures Reachable(c, s) && |s.sessions| == 2 && s.sessions[1].pc.Joining? && s.sessions[1].request == q
    ensures q.target !in s.flights
    ensures s.cache == [Lru.Entry(q.target, Px.Returned(r, q.version, q.keepAlive), s.now + c.ttl)]
    ensures Lru.Get(s.cache, q.target, s.now).result.Some? <==> c.ttl > 0
  {
    var reach := iset x: State | Reachable(c, x);
    ReachIsClosed(c, reach);
    s := LateMissIn(c, reach, q, r);
  }

  lemma ReachIsClosed(c: Config, reach: iset<State>)
    requires ValidConfig(c) && reach == iset x: State | Reachable(c, x)
    ensures NeverLeaves(c, reach) && Init(c) in reach
  {
    assert Legal(c, Init(c), []) && After(c, Init(c), []) == Init(c);
    forall s, a | s in reach && Enabled(c, s, a) ensures Apply(c, s, a) in reach {
      ReachableStep(c, s, a);
    }
  }
}
