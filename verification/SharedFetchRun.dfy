/**
 * A flight's result goes to its waiters whatever it is: for every configuration, two cacheable requests for one target
 * and any upstream response there is a run in which the second is answered with what was fetched for the first.
 */
module SharedFetchRun {
  import opened Http
  import opened Session
  import opened SessionTheorems
  import opened LateMissRun
  import Pool = UpstreamPools
  import Px = Proxying

  /** A session joins the flight under its key. */
  lemma ToAwaiting(c: Config, reach: iset<State>, s: State, i: nat) returns (t: State)
    requires NeverLeaves(c, reach) && s in reach && Sized(c, s) && i < |s.sessions| && s.sessions[i].pc.Joining?
    requires s.sessions[i].request.target in s.flights && s.sessions[i].request.target in s.current
    ensures t in reach && Sized(c, t)
    ensures var key := s.sessions[i].request.target;
            && t.sessions == s.sessions[i := s.sessions[i].(pc := Awaiting(s.current[key]))]
            && t.flights == s.flights[key := s.flights[key] + [i]]
    ensures t.pool == s.pool && t.log == s.log && t.records == s.records
  {
    t := Move(c, reach, s, i);
    assert t == JoinStep(s, i);
    t := Move(c, reach, t, i);
  }

  /** The fetch is over: the leader settles, stores if it may, and takes out its waiters. */
  lemma ToPosting(c: Config, reach: iset<State>, s: State, i: nat, f: nat) returns (t: State)
    requires NeverLeaves(c, reach) && s in reach && Sized(c, s) && i < |s.sessions|
    requires s.sessions[i].pc.Fetched? && s.sessions[i].pc.lead == Some(f) && s.sessions[i].request.target in s.flights
    ensures t in reach && Sized(c, t) && t.log == s.log && |t.records| == |s.records|
    ensures t.sessions == s.sessions[i := s.sessions[i].(
              pc := Posting(f, s.sessions[i].pc.response, s.flights[s.sessions[i].request.target]))]
    ensures forall g :: 0 <= g < |s.records| ==> t.records[g].opener == s.records[g].opener
  {
    t := Move(c, reach, s, i);
    t := Move(c, reach, t, i);
    t := Move(c, reach, t, i);
  }

  /** The one waiter is called, and answers. */
  lemma ToAnswered(c: Config, reach: iset<State>, s: State, i: nat, w: nat) returns (t: State)
    requires NeverLeaves(c, reach) && s in reach && Sized(c, s) && i < |s.sessions| && w < |s.sessions| && w != i
    requires s.sessions[i].pc.Posting? && s.sessions[i].pc.waiters == [w]
    requires s.sessions[w].pc.Awaiting? && s.sessions[w].inbox == []
    requires s.sessions[w].id < |s.log| && s.log[s.sessions[w].id].answers == []
    ensures t in reach && t.records == s.records && |t.log| == |s.log|
    ensures forall r :: 0 <= r < |s.log| ==> t.log[r].request == s.log[r].request
    ensures t.log[s.sessions[w].id].answers
            == [Answer(FromFlight(s.sessions[i].pc.flight), Fit(s.sessions[i].pc.response, s.sessions[w].request))]
  {
    t := Move(c, reach, s, i);
    assert t.sessions[w].inbox == [Delivery(s.sessions[i].pc.flight, s.sessions[i].pc.response)];
    t := Move(c, reach, t, w);
    t := Move(c, reach, t, w);
  }

  /** The first request leads and the second waits. */
  lemma LeadAndWait(c: Config, reach: iset<State>, q: Request, r: Request) returns (s: State)
    requires ValidConfig(c) && NeverLeaves(c, reach) && Init(c) in reach
    requires CacheRoute(q) && CacheRoute(r) && q.target == r.target
    ensures s in reach && Sized(c, s) && s.pool == InitPool(c)
    ensures s.sessions == [Session(Selecting(Some(0)), 0, q, []), Session(Awaiting(0), 1, r, [])]
    ensures q.target in s.flights && s.flights[q.target] == [1]
    ensures s.log == [RequestRecord(q, 0, []), RequestRecord(r, 1, [])]
    ensures |s.records| == 1 && s.records[0].opener == 0
  {
    s := TwoReaders(c, reach, q, r);
    s := ToJoining(c, reach, s, 0);
    s := ToJoining(c, reach, s, 1);
    s := ToSelecting(c, reach, s, 0);
    s := ToAwaiting(c, reach, s, 1);
  }

  lemma SharedIn(c: Config, reach: iset<State>, q: Request, r: Request, answer: Response) returns (s: State)
    requires ValidConfig(c) && NeverLeaves(c, reach) && Init(c) in reach
    requires CacheRoute(q) && CacheRoute(r) && q.target == r.target
    ensures s in reach && |s.records| == 1 && s.records[0].opener == 0
    ensures |s.log| == 2 && s.log[0].request == q && s.log[1].request == r
    ensures s.log[1].answers == [Answer(FromFlight(0), Fit(Px.Returned(answer, q.version, q.keepAlive), r))]
  {
    var fetch, p;
    s := LeadAndWait(c, reach, q, r);
    Pool.ChoiceIsNearest(s.pool);
    assert s.pool.healthy[0];
    s, fetch := ToLaunching(c, reach, s, 0);
    s, p := ToFetching(c, reach, s, 0);
    s := ToFetched(c, reach, s, 0, answer);
    s := ToPosting(c, reach, s, 0, 0);
    s := ToAnswered(c, reach, s, 0, 1);
  }

  /** The second request is answered with what was fetched for the first, storable or not. */
  lemma SharedFetchHappens(c: Config, q: Request, r: Request, answer: Response) returns (s: State)
    requires ValidConfig(c) && CacheRoute(q) && CacheRoute(r) && q.target == r.target
    ensures Reachable(c, s) && |s.records| == 1 && s.records[0].opener == 0
    ensures |s.log| == 2 && s.log[0].request == q && s.log[1].request == r
    ensures |s.log[1].answers| == 1 && s.log[1].answers[0].source == FromFlight(0)
    ensures Px.Relays(answer, s.log[1].answers[0].response) && Suits(s.log[1].answers[0].response, r)
    ensures CacheableResponse(s.log[1].answers[0].response) <==>
            CacheableResponse(Px.Returned(answer, q.version, q.keepAlive))
  {
    var reach := iset x: State | Reachable(c, x);
    ReachIsClosed(c, reach);
    s := SharedIn(c, reach, q, r, answer);
    FitKeepsStorage(Px.Returned(answer, q.version, q.keepAlive), r);
    Px.ReturnedRelays(answer, q.version, q.keepAlive);
    FitMeans(Px.Returned(answer, q.version, q.keepAlive), r);
  }
}
