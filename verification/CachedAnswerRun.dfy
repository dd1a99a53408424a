/**
 * Entries are found by target alone: for every configuration with a positive time to live, two cacheable requests for one
 * target and a storable response there is a run in which the second is answered from the cache with what was fetched for
 * the first. A Vary field in the response makes no difference, where section 4.1 of RFC 9111 has the named fields compared.
 */
module CachedAnswerRun {
  import opened Http
  import opened HopByHop
  import opened Session
  import opened SessionTheorems
  import opened LateMissRun
  import CacheControl
  import StoragePolicy
  import Lru = RecencyList
  import Pool = UpstreamPools
  import Px = Proxying

  /** A session has read a request, and another waits for one. */
  lemma OneReader(c: Config, reach: iset<State>, q: Request) returns (s: State)
    requires ValidConfig(c) && NeverLeaves(c, reach) && Init(c) in reach
    ensures s in reach && Sized(c, s)
    ensures s.sessions == [Session(Counting, 0, q, []), Session(Reading, 0, NO_REQUEST, [])]
    ensures s.log == [RequestRecord(q, 0, [])]
    ensures s.now == 0 && s.cache == [] && s.flights == map[] && s.pool == InitPool(c)
  {
    s := Init(c);
    s := Apply(c, s, AcceptSession);
    s := Apply(c, s, AcceptSession);
    s := Apply(c, s, ReadRequest(0, q));
  }

  /** A session reads a request and answers it from the cache. */
  lemma ToHit(c: Config, reach: iset<State>, s: State, i: nat, r: Request) returns (t: State)
    requires NeverLeaves(c, reach) && s in reach && Sized(c, s) && i < |s.sessions| && s.sessions[i].pc.Reading?
    requires CacheRoute(r) && Lru.Get(s.cache, r.target, s.now).result.Some?
    ensures t in reach && |t.log| == |s.log| + 1 && t.log[..|s.log|] == s.log && t.log[|s.log|].request == r
    ensures t.log[|s.log|].answers
            == [Answer(FromCache(|s.ops|), Fit(Lru.Get(s.cache, r.target, s.now).result.value, r))]
  {
    t := Apply(c, s, ReadRequest(i, r));
    t := Move(c, reach, t, i);
    DispatchLooksUp(t, i, "");
    t := Move(c, reach, t, i);
    t := Move(c, reach, t, i);
    t := Move(c, reach, t, i);
  }

  lemma CachedIn(c: Config, reach: iset<State>, q: Request, r: Request, sent: Response) returns (s: State)
    requires ValidConfig(c) && c.ttl > 0 && NeverLeaves(c, reach) && Init(c) in reach
    requires CacheRoute(q) && CacheRoute(r) && q.target == r.target
    requires CacheableResponse(Px.Returned(sent, q.version, q.keepAlive))
    ensures s in reach && |s.log| == 2 && s.log[0].request == q && s.log[1].request == r
    ensures |s.log[1].answers| == 1 && s.log[1].answers[0].source.FromCache?
    ensures s.log[1].answers[0].response == Fit(Px.Returned(sent, q.version, q.keepAlive), r)
  {
    s := OneReader(c, reach, q);
    s := ToJoining(c, reach, s, 0);
    Pool.ChoiceIsNearest(s.pool);
    assert s.pool.healthy[0];
    s := JoinedToReleased(c, reach, s, 0, sent);
    s := ToHit(c, reach, s, 1, r);
  }

  /** The second request gets what was stored for the first, whatever else the two ask for. */
  lemma CachedForAnother(c: Config, q: Request, r: Request, sent: Response) returns (s: State)
    requires ValidConfig(c) && c.ttl > 0 && CacheRoute(q) && CacheRoute(r) && q.target == r.target
    requires CacheableResponse(Px.Returned(sent, q.version, q.keepAlive))
    ensures Reachable(c, s) && |s.log| == 2 && s.log[0].request == q && s.log[1].request == r
    ensures |s.log[1].answers| == 1 && s.log[1].answers[0].source.FromCache?
    ensures Px.Relays(sent, s.log[1].answers[0].response) && Suits(s.log[1].answers[0].response, r)
  {
    var reach := iset x: State | Reachable(c, x);
    ReachIsClosed(c, reach);
    s := CachedIn(c, reach, q, r, sent);
    Px.ReturnedRelays(sent, q.version, q.keepAlive);
    FitMeans(Px.Returned(sent, q.version, q.keepAlive), r);
  }

  // ---------- Vary ----------

  const VARY := "Vary"

  /** A Vary field of the response names this field. */
  ghost predicate VariesBy(headers: seq<Header>, name: string) {
    exists i :: 0 <= i < |headers| && Lower(headers[i].name) == Lower(VARY) && name in Tokens(Split(headers[i].value))
  }

  /** The requests differ in a field that the response names, so the one's response is not for the other. */
  ghost predicate SelectsAnother(headers: seq<Header>, q: Request, r: Request) {
    exists name :: VariesBy(headers, name) && FieldValue(q.headers, name) != FieldValue(r.headers, name)
  }

  /** Whenever that is so, there is a run in which the response is served to the other all the same. */
  lemma VaryIsIgnored(c: Config, q: Request, r: Request, sent: Response) returns (s: State)
    requires ValidConfig(c) && c.ttl > 0 && CacheRoute(q) && CacheRoute(r) && q.target == r.target
    requires CacheableResponse(Px.Returned(sent, q.version, q.keepAlive))
    requires SelectsAnother(EndToEnd(sent.headers), q, r)
    ensures Reachable(c, s) && |s.log| == 2 && s.log[0].request == q && s.log[1].request == r
    ensures |s.log[1].answers| == 1 && s.log[1].answers[0].source.FromCache?
    ensures SelectsAnother(s.log[1].answers[0].response.headers, q, r)
  {
    s := CachedForAnother(c, q, r, sent);
    EndToEndIsPassedOn(sent.headers);
    PassedOnIsUnique(sent.headers, EndToEnd(sent.headers), s.log[1].answers[0].response.headers, {});
  }

  const VARYING := Response(200, 11, true, [Header(VARY, "A")], "")

  function Asking(headers: seq<Header>): Request {
    Request(GetVerb, "/", 11, true, headers, "")
  }

  lemma VaryingPassesThrough()
    ensures EndToEnd(VARYING.headers) == VARYING.headers
  {
    var headers := VARYING.headers;
    assert Lower(headers[0].name)[0] == 'v' && Lower(CONNECTION)[0] == 'c';
    assert forall n :: n in FIXED ==> n[0] != 'v';
    assert headers[1..] == [] && headers == [headers[0]];
    assert Nominated(headers) == {} && Keep(headers, FIXED) == [headers[0]] + Keep([], FIXED);
    assert {} + FIXED == FIXED;
  }

  lemma VaryingIsStorable()
    ensures CacheableResponse(Px.Returned(VARYING, 11, true))
  {
    VaryingPassesThrough();
    var headers := VARYING.headers;
    assert Lower(headers[0].name)[0] == 'v' && Lower(SET_COOKIE)[0] == 's' && Lower(CACHE_CONTROL)[0] == 'c';
    assert headers[1..] == [] && FieldValue(headers, CACHE_CONTROL) == "";
    StoragePolicy.NothingContainsMarks();
  }

  /** Two requests and a response of that kind: one asks with a field `A`, the other without. */
  lemma VaryCase() returns (q: Request, r: Request)
    ensures CacheRoute(q) && CacheRoute(r) && q.target == r.target
    ensures CacheableResponse(Px.Returned(VARYING, q.version, q.keepAlive))
    ensures SelectsAnother(EndToEnd(VARYING.headers), q, r)
  {
    q, r := Asking([Header("A", "1")]), Asking([]);
    assert Lower(q.headers[0].name)[0] == 'a' && |Lower(AUTHORIZATION)| == 13;
    VaryingIsStorable();
    VaryingPassesThrough();
    CacheControl.OneToken("A");
    assert "A" in Tokens(Split(VARYING.headers[0].value));
    assert VariesBy(VARYING.headers, "A");
    assert FieldValue(q.headers, "A") == "1" && FieldValue(r.headers, "A") == "";
  }
}
