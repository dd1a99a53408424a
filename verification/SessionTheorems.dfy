/** What every run of the session protocol guarantees. */
module SessionTheorems {
  import opened Http
  import Metrics
  import opened Session
  import opened SessionInvariants
  import opened Conservation
  import opened Quiescence
  import opened RequestViews
  import FP = FlightProtocol
  import FR = FlightRefinement
  import Steps = SessionSteps
  import Lru = RecencyList
  import Trace = CacheTraces
  import LruLaws
  import Pool = UpstreamPools
  import Fair = PoolFairness
  import Px = Proxying
  import HopByHop
  import StoragePolicy
  import opened Endpoints

  // ---------- Every reachable state ----------

  lemma InitInv(c: Config)
    requires ValidConfig(c)
    ensures Inv(c, Init(c)) && Laws(c, Init(c))
  {
    InitLaws(c);
  }

  lemma StepInv(c: Config, s: State, a: Action)
    requires Inv(c, s) && Laws(c, s) && Enabled(c, s, a)
    ensures Inv(c, Apply(c, s, a)) && Laws(c, Apply(c, s, a))
  {
    FR.FlightsKeep(c, s, a);
    Steps.StepKeeps(c, s, a);
    LawsStep(c, s, a);
  }

  lemma {:induction false} RunInv(c: Config, s: State, actions: seq<Action>)
    requires Inv(c, s) && Laws(c, s) && Legal(c, s, actions)
    ensures Inv(c, After(c, s, actions)) && Laws(c, After(c, s, actions))
  {
    if actions != [] {
      var n := |actions| - 1;
      RunInv(c, s, actions[..n]);
      StepInv(c, After(c, s, actions[..n]), actions[n]);
    }
  }

  /** The state reached from the start by some run. */
  ghost predicate Reachable(c: Config, s: State) {
    ValidConfig(c) && exists actions :: Legal(c, Init(c), actions) && After(c, Init(c), actions) == s
  }

  lemma ReachableInv(c: Config, s: State)
    requires Reachable(c, s)
    ensures Inv(c, s) && Laws(c, s)
  {
    var actions :| Legal(c, Init(c), actions) && After(c, Init(c), actions) == s;
    InitInv(c);
    RunInv(c, Init(c), actions);
  }

  lemma {:induction false} RunViews(c: Config, actions: seq<Action>)
    requires ValidConfig(c) && Legal(c, Init(c), actions)
    ensures MemberInv(After(c, Init(c), actions)) && PickInv(c, After(c, Init(c), actions))
  {
    if actions != [] {
      var n := |actions| - 1;
      RunViews(c, actions[..n]);
      assert Inv(c, After(c, Init(c), actions[..n])) by {
        InitInv(c);
        RunInv(c, Init(c), actions[..n]);
      }
      ViewsStep(c, After(c, Init(c), actions[..n]), actions[n]);
    }
  }

  lemma ReachableViews(c: Config, s: State)
    requires Reachable(c, s)
    ensures MemberInv(s) && PickInv(c, s)
  {
    var actions :| Legal(c, Init(c), actions) && After(c, Init(c), actions) == s;
    RunViews(c, actions);
  }

  // ---------- Each request is in one place ----------

  predicate Holds(s: State, i: nat, r: nat)
    requires i < |s.sessions|
  {
    Unanswered(s.sessions[i].pc) && s.sessions[i].id == r
  }

  /** Every request read is held by exactly one session and unanswered, or answered exactly once and held by none. */
  lemma RequestInOnePlace(c: Config, s: State, r: nat)
    requires Reachable(c, s) && r < |s.log|
    ensures s.log[r].holder < |s.sessions|
    ensures |s.log[r].answers| <= 1
    ensures forall i :: 0 <= i < |s.sessions| ==> (Holds(s, i, r) <==> i == s.log[r].holder && s.log[r].answers == [])
  {
    ReachableInv(c, s);
    assert LogOk(c, s, r);
    forall i | 0 <= i < |s.sessions| ensures Holds(s, i, r) <==> i == s.log[r].holder && s.log[r].answers == [] {
      assert HoldsOk(s, i);
    }
  }

  /** A waiting request is in one flight's waiter list, in its leader's hands, or in its session's inbox: one of them, once. */
  lemma WaiterInOnePlace(c: Config, s: State, i: nat)
    requires Reachable(c, s) && i < |s.sessions| && PartOf(s.sessions[i].pc).Awaits?
    ensures FP.WaiterPlaced(TableOf(s), i)
  {
    ReachableInv(c, s);
    FP.WaiterInOnePlace(TableOf(s), i);
  }

  // ---------- Flights ----------

  lemma LeaderKey(c: Config, s: State, i: nat)
    requires Inv(c, s) && i < |s.sessions| && PartOf(s.sessions[i].pc).Leads?
    ensures FP.PartOk(TableOf(s), i)
    ensures var f := PartOf(s.sessions[i].pc).flight;
            f < |s.records| && s.records[f].key == s.sessions[i].request.target
  {
    assert FP.PartOk(TableOf(s), i);
    assert SessionOk(c, s, s.sessions[i]);
  }

  /** A key in flight has a session that leads it, and a leading session has its key in flight, under its own flight. */
  lemma KeyHasLeader(c: Config, s: State, k: string) returns (i: nat)
    requires Reachable(c, s) && k in s.flights
    ensures i < |s.sessions| && k in s.current && PartOf(s.sessions[i].pc) == FP.Leads(s.current[k])
    ensures s.sessions[i].request.target == k
  {
    ReachableInv(c, s);
    assert FP.KeyOk(TableOf(s), k);
    i := s.records[s.current[k]].leader;
    LeaderKey(c, s, i);
  }

  lemma LeaderHasKey(c: Config, s: State, i: nat)
    requires Reachable(c, s) && i < |s.sessions| && PartOf(s.sessions[i].pc).Leads?
    ensures var k, f := s.sessions[i].request.target, PartOf(s.sessions[i].pc).flight;
            k in s.flights && k in s.current && s.current[k] == f && f < |s.records| && s.records[f].leader == i
  {
    ReachableInv(c, s);
    LeaderKey(c, s, i);
  }

  /** Different leaders have different keys. */
  lemma OneLeaderPerKey(c: Config, s: State, i: nat, j: nat)
    requires Reachable(c, s) && i < |s.sessions| && j < |s.sessions|
    requires PartOf(s.sessions[i].pc).Leads? && PartOf(s.sessions[j].pc).Leads?
    requires s.sessions[i].request.target == s.sessions[j].request.target
    ensures i == j
  {
    LeaderHasKey(c, s, i);
    LeaderHasKey(c, s, j);
  }

  /** So at most one coalesced fetch per key is under way. */
  lemma OneFetchPerKey(c: Config, s: State, i: nat, j: nat)
    requires Reachable(c, s) && i < |s.sessions| && j < |s.sessions|
    requires s.sessions[i].pc.Fetching? && s.sessions[i].pc.lead.Some?
    requires s.sessions[j].pc.Fetching? && s.sessions[j].pc.lead.Some?
    requires s.sessions[i].request.target == s.sessions[j].request.target
    ensures i == j
  {
    OneLeaderPerKey(c, s, i, j);
  }

  /** When a leader completes, the flight under its key is its own, and exactly that one goes. */
  lemma CompletionRemovesOwnFlight(c: Config, s: State, i: nat)
    requires Reachable(c, s) && i < |s.sessions| && s.sessions[i].pc.Completing?
    ensures var key := s.sessions[i].request.target;
            && key in s.flights && key in s.current && s.current[key] == s.sessions[i].pc.flight
            && CompleteStep(s, i).flights == s.flights - {key}
            && CompleteStep(s, i).sessions[i].pc.waiters == s.flights[key]
  {
    ReachableInv(c, s);
    LeaderKey(c, s, i);
  }

  /**
   * The leader and all waiters of a flight are answered from that flight: two requests that joined it, in either role,
   * get its result, each with the version and keep-alive it asked for.
   */
  lemma FlightAgreement(c: Config, s: State, f: nat, q: nat, r: nat)
    requires Reachable(c, s) && q < |s.log| && r < |s.log| && s.log[q].answers != [] && s.log[r].answers != []
    requires Joined(s, q) == Some(f) && Joined(s, r) == Some(f)
    ensures f < |s.records| && s.records[f].result.Some? && Joined(s, s.records[f].opener) == Some(f)
    ensures s.log[q].answers[0].source == FromFlight(f) && s.log[r].answers[0].source == FromFlight(f)
    ensures SameContent(s.log[q].answers[0].response, s.records[f].result.value)
    ensures SameContent(s.log[q].answers[0].response, s.log[r].answers[0].response)
    ensures Suits(s.log[q].answers[0].response, s.log[q].request) && Suits(s.log[r].answers[0].response, s.log[r].request)
    ensures s.log[q].request.target == s.log[r].request.target == s.records[f].key
  {
    AnswerExplained(c, s, q);
    AnswerExplained(c, s, r);
    FitMeans(s.records[f].result.value, s.log[q].request);
    FitMeans(s.records[f].result.value, s.log[r].request);
    assert Joined(s, s.records[f].opener) == Some(f) by { ReachableViews(c, s); }
  }

  /**
   * Every answer is what its source says: rendered here, the cache's answer to its own lookup, the result of the flight
   * it joined, its own fetch's outcome or a 503. It comes from a flight exactly if the request joined that flight.
   */
  lemma AnswerExplained(c: Config, s: State, r: nat)
    requires Reachable(c, s) && r < |s.log| && s.log[r].answers != []
    ensures AnswerOk(c, s, s.log[r].request, r, s.log[r].answers[0].source, s.log[r].answers[0].response)
    ensures SourceFlight(s.log[r].answers[0].source) == Joined(s, r)
  {
    assert LogOk(c, s, r) by { ReachableInv(c, s); }
    assert FlightOf(s, r) == Joined(s, r) by { ReachableViews(c, s); }
  }

  /** What a fetch brings back may be stored: it went well, and the upstream's answer is storable once it is filtered. */
  ghost predicate BroughtStorable(events: seq<Px.Event>) {
    && Px.Clean(events)
    && var sent := events[3].response;
    && sent.status == 200
    && (HasField(sent.headers, SET_COOKIE) ==> StoragePolicy.Listed(sent, SET_COOKIE))
    && (StoragePolicy.MarkedUnstorable(sent) ==> StoragePolicy.Listed(sent, CACHE_CONTROL))
  }

  lemma OutcomeStorable(q: Request, upstream: Endpoint, events: seq<Px.Event>)
    requires Px.Outcome(q, upstream, events).Some?
    ensures CacheableResponse(Px.Outcome(q, upstream, events).value) <==> BroughtStorable(events)
  {
    if |events| >= 4 {
      StoragePolicy.DecisionAfterFilter(events[3].response);
      FitKeepsStorage(StoragePolicy.Filtered(events[3].response), q);
    }
  }

  lemma FitKeepsStorage(r: Response, q: Request)
    ensures CacheableResponse(Fit(r, q)) <==> CacheableResponse(r)
  {
  }

  /**
   * Coalescing shares what was fetched whether or not it may be stored: a request that joined a flight, be it as a
   * waiter, gets what was fetched for the opener's request. It is unfit for storing, and was not stored, exactly if the
   * fetch failed or the upstream's answer is unfit once it is filtered.
   */
  lemma SharedWhetherStorable(c: Config, s: State, f: nat, r: nat)
    requires Reachable(c, s) && r < |s.log| && s.log[r].answers != [] && Joined(s, r) == Some(f)
    requires f < |s.records| && s.records[f].attempt.Made?
    ensures s.records[f].result.Some? && s.records[f].opener < |s.log|
    ensures CameTo(c, s, s.log[s.records[f].opener].request, s.records[f].attempt.fetch, s.records[f].result.value)
    ensures SameContent(s.log[r].answers[0].response, s.records[f].result.value)
    ensures Suits(s.log[r].answers[0].response, s.log[r].request)
    ensures CacheableResponse(s.log[r].answers[0].response) <==> BroughtStorable(s.records[f].attempt.fetch.events)
    ensures s.records[f].stored.Some? <==> BroughtStorable(s.records[f].attempt.fetch.events)
  {
    AnswerExplained(c, s, r);
    ResultExplained(c, s, f);
    FitKeepsStorage(s.records[f].result.value, s.log[r].request);
    var fetch := s.records[f].attempt.fetch;
    OutcomeStorable(s.log[s.records[f].opener].request, c.endpoints[fetch.upstream], fetch.events);
  }

  /** The local routes answer a GET with 200, from the health text or the rendered metrics, and any other method with 405. */
  lemma LocalAnswers(c: Config, s: State, r: nat)
    requires Reachable(c, s) && r < |s.log| && s.log[r].answers != [] && LocalRoute(s.log[r].request)
    ensures var q, answer := s.log[r].request, s.log[r].answers[0];
            && answer.source.Local?
            && answer.response.status == (if q.verb == GetVerb then 200 else 405)
            && (q.verb == GetVerb ==>
                  answer.response.body == if q.target == HEALTH_TARGET then HEALTH_BODY else answer.source.rendered)
            && (q.verb == GetVerb ==>
                  Header("Content-Type", if q.target == HEALTH_TARGET then "application/json" else "text/plain; version=0.0.4")
                  in answer.response.headers)
            && (q.verb != GetVerb ==> Header("Allow", "GET") in answer.response.headers)
  {
    AnswerExplained(c, s, r);
  }

  /** A flight's result is what its leader's own request came to upstream, or a 503 if no upstream could be selected. */
  lemma ResultExplained(c: Config, s: State, f: nat)
    requires Reachable(c, s) && f < |s.records| && s.records[f].result.Some?
    ensures var rec := s.records[f];
            && rec.opener < |s.log| && s.log[rec.opener].request.target == rec.key && CacheRoute(s.log[rec.opener].request)
            && MaySettle(c, s, s.log[rec.opener].request, rec.result.value, rec.attempt)
  {
    ReachableInv(c, s);
    assert RecordOk(c, s, f);
  }

  /** Whether upstream `u` was marked healthy when pool operation `k` ran. */
  ghost predicate HealthyAt(c: Config, s: State, k: nat, u: nat)
    requires ValidConfig(c) && k < |s.poolOps| && u < |c.endpoints|
  {
    Fair.After(InitPool(c), s.poolOps[..k]).healthy[u]
  }

  lemma SelectionMeans(c: Config, s: State, k: nat, choice: Option<nat>)
    requires Selected(c, s, k, choice)
    ensures choice.Some? ==> choice.value < |c.endpoints| && HealthyAt(c, s, k, choice.value)
    ensures choice.None? ==> forall u :: 0 <= u < |c.endpoints| ==> !HealthyAt(c, s, k, u)
  {
    Pool.ChoiceIsNearest(Fair.After(InitPool(c), s.poolOps[..k]));
  }

  /**
   * A flight's fetch goes to an upstream that was marked healthy when it was selected, and a flight without a fetch
   * found every upstream marked unhealthy.
   */
  lemma FlightWentToHealthy(c: Config, s: State, f: nat)
    requires Reachable(c, s) && f < |s.records| && s.records[f].result.Some?
    ensures !s.records[f].attempt.NotYet?
    ensures match s.records[f].attempt
            case Made(fetch) =>
              fetch.pick < |s.poolOps| && fetch.upstream < |c.endpoints| && HealthyAt(c, s, fetch.pick, fetch.upstream)
            case Refused(pick) =>
              pick < |s.poolOps| && forall u :: 0 <= u < |c.endpoints| ==> !HealthyAt(c, s, pick, u)
            case NotYet => true
  {
    ResultExplained(c, s, f);
    match s.records[f].attempt
    case Made(fetch) => SelectionMeans(c, s, fetch.pick, Some(fetch.upstream));
    case Refused(pick) => SelectionMeans(c, s, pick, None);
    case NotYet =>
  }

  /** The same for a request that bypasses the cache: fetched from a healthy upstream, or a 503 when there was none. */
  lemma BypassWentToHealthy(c: Config, s: State, r: nat)
    requires Reachable(c, s) && r < |s.log| && s.log[r].answers != [] && BypassRoute(s.log[r].request)
    ensures match s.log[r].answers[0].source
            case FromFetch(fetch) =>
              fetch.pick < |s.poolOps| && fetch.upstream < |c.endpoints| && HealthyAt(c, s, fetch.pick, fetch.upstream)
            case NoUpstream(pick) =>
              && s.log[r].answers[0].response.status == 503
              && pick < |s.poolOps| && forall u :: 0 <= u < |c.endpoints| ==> !HealthyAt(c, s, pick, u)
            case _ => false
  {
    AnswerExplained(c, s, r);
    match s.log[r].answers[0].source
    case FromFetch(fetch) => SelectionMeans(c, s, fetch.pick, Some(fetch.upstream));
    case NoUpstream(pick) => SelectionMeans(c, s, pick, None);
    case _ =>
  }

  /** Cache operation `k` is a store made by flight `f`. */
  ghost predicate StoredAt(s: State, f: nat, k: nat) {
    k < |s.ops| == |s.origins.cache| && s.ops[k].StoreOp? && s.origins.cache[k] == f
  }

  lemma StoresOfFlight(c: Config, s: State, f: nat)
    requires LogInv(c, s) && f < |s.records|
    ensures forall k: nat :: StoredAt(s, f, k) <==> s.records[f].stored == Some(k)
    ensures forall k: nat :: StoredAt(s, f, k) ==>
              s.ops[k].key == s.records[f].key && s.records[f].result == Some(s.ops[k].response)
  {
    assert RecordOk(c, s, f);
    forall k: nat | StoredAt(s, f, k)
      ensures s.records[f].stored == Some(k)
      ensures s.ops[k].key == s.records[f].key && s.records[f].result == Some(s.ops[k].response)
    {
      assert OpOk(s, k);
    }
  }

  /**
   * By the time a flight's waiters are released, its result has been stored exactly once, under its key, if it was
   * fetched and may be stored, and never otherwise.
   */
  lemma StoredBeforeRelease(c: Config, s: State, f: nat)
    requires Reachable(c, s) && f < |s.records| && WaitersReleased(s, f)
    ensures StoredIfDue(s.records[f])
    ensures forall k: nat :: StoredAt(s, f, k) <==> s.records[f].stored == Some(k)
    ensures forall k: nat :: StoredAt(s, f, k) ==>
              s.ops[k].key == s.records[f].key && s.records[f].result == Some(s.ops[k].response)
  {
    assert Inv(c, s) by { ReachableInv(c, s); }
    ReleasedIsStored(c, s, f);
    StoresOfFlight(c, s, f);
  }

  /** Some waiter of the flight has been released: the leader is posting, a delivery is queued, or an answer was written. */
  ghost predicate WaitersReleased(s: State, f: nat) {
    || (exists i :: 0 <= i < |s.sessions| && s.sessions[i].pc.Posting? && s.sessions[i].pc.flight == f)
    || (exists i, d :: 0 <= i < |s.sessions| && d in s.sessions[i].inbox && d.flight == f)
    || (exists r :: 0 <= r < |s.log| && s.log[r].answers != [] && s.log[r].answers[0].source == FromFlight(f))
  }

  lemma ReleasedIsStored(c: Config, s: State, f: nat)
    requires Inv(c, s) && f < |s.records| && WaitersReleased(s, f)
    ensures StoredIfDue(s.records[f])
  {
    if i :| 0 <= i < |s.sessions| && s.sessions[i].pc.Posting? && s.sessions[i].pc.flight == f {
      assert SessionOk(c, s, s.sessions[i]);
    } else if i, d :| 0 <= i < |s.sessions| && d in s.sessions[i].inbox && d.flight == f {
      assert SessionOk(c, s, s.sessions[i]);
    } else {
      var r :| 0 <= r < |s.log| && s.log[r].answers != [] && s.log[r].answers[0].source == FromFlight(f);
      assert LogOk(c, s, r);
    }
  }

  /** Every answer carries its own request's version and keep-alive. */
  lemma AnswersFit(c: Config, s: State, r: nat)
    requires Reachable(c, s) && r < |s.log| && s.log[r].answers != []
    ensures s.log[r].answers[0].response.version == s.log[r].request.version
    ensures s.log[r].answers[0].response.keepAlive == s.log[r].request.keepAlive
  {
    AnswerExplained(c, s, r);
  }

  // ---------- What is sent and what comes back ----------

  /** A fetch under way asks its upstream for what its session's client asked: same method, target and body. */
  lemma FetchAsksTheSame(c: Config, s: State, i: nat)
    requires Reachable(c, s) && i < |s.sessions| && s.sessions[i].pc.Fetching?
    ensures s.sessions[i].pc.proxy.Pending?
    ensures var asked, q := s.sessions[i].pc.proxy.request, s.sessions[i].request;
            asked.verb == q.verb && asked.target == q.target && asked.body == q.body
  {
    assert SessionOk(c, s, s.sessions[i]) by { ReachableInv(c, s); }
    var q, fetch := s.sessions[i].request, s.sessions[i].pc.fetch;
    Px.DriveMeetsOutcome(q, c.endpoints[fetch.upstream], fetch.events);
    Px.ForwardedRequest(q, c.endpoints[fetch.upstream]);
  }

  /** What a fetch for `q` came to: the upstream's own answer if all went well, and a gateway error otherwise. */
  lemma FetchBrings(c: Config, s: State, q: Request, fetch: Fetch, r: Response)
    requires CameTo(c, s, q, fetch, r)
    ensures if Px.Clean(fetch.events) then Px.Relays(fetch.events[3].response, r) && Suits(r, q)
            else r.status == 502 || r.status == 504
  {
    Px.OutcomeRelays(q, c.endpoints[fetch.upstream], fetch.events);
  }

  // ---------- The cache ----------

  /** A fetch comes to a 200 only by bringing the upstream's own response, freed of hop-by-hop fields. */
  lemma GoodFetch(c: Config, s: State, q: Request, fetch: Fetch, r: Response)
    requires CameTo(c, s, q, fetch, r) && r.status == 200
    ensures Px.Clean(fetch.events) && Px.Relays(fetch.events[3].response, r) && Suits(r, q)
    ensures HopByHop.HopFree(r.headers)
  {
    FetchBrings(c, s, q, fetch, r);
    HopByHop.FilteredIsHopFree(fetch.events[3].response.headers);
  }

  /**
   * Every cached entry is what the upstream answered when it was asked with a GET for exactly that target, on behalf of
   * a client without credentials: its status, its body and its fields but the hop-by-hop ones, and storable. It was
   * stored last for its key, `ttl` before its expiry.
   */
  lemma CacheProvenance(c: Config, s: State, e: Lru.Entry)
    returns (k: nat, q: Request, asked: Request, answer: Response)
    requires Reachable(c, s) && e in s.cache
    ensures k < |s.ops| == |s.origins.cache| && Trace.LastStore(s.ops, e.key) == Some(k)
    ensures s.ops[k] == Trace.StoreOp(e.key, e.response, e.expires - c.ttl)
    ensures var f := s.origins.cache[k];
            && f < |s.records| && s.records[f].key == e.key && s.records[f].result == Some(e.response)
            && s.records[f].opener < |s.log| && q == s.log[s.records[f].opener].request
            && s.records[f].attempt.Made? && |s.records[f].attempt.fetch.events| >= 4
            && s.records[f].attempt.fetch.upstream < |c.endpoints|
            && asked == Px.Forwarded(q, c.endpoints[s.records[f].attempt.fetch.upstream])
            && answer == s.records[f].attempt.fetch.events[3].response
    ensures MayUseCache(q) && q.target == e.key && asked.verb == GetVerb && asked.target == e.key
    ensures Px.Relays(answer, e.response) && Suits(e.response, q) && HopByHop.HopFree(e.response.headers)
    ensures e.response.status == 200 && !HasField(e.response.headers, SET_COOKIE)
    ensures var control := FieldValue(e.response.headers, CACHE_CONTROL);
            !Contains(control, "no-store") && !Contains(control, "private")
  {
    ReachableInv(c, s);
    k := LastStoreOf(c, s, e);
    assert OpOk(s, k);
    var rec := s.records[s.origins.cache[k]];
    assert RecordOk(c, s, s.origins.cache[k]);
    q := s.log[rec.opener].request;
    GoodFetch(c, s, q, rec.attempt.fetch, e.response);
    answer := rec.attempt.fetch.events[3].response;
    asked := Px.Forwarded(q, c.endpoints[rec.attempt.fetch.upstream]);
    Px.ForwardedRequest(q, c.endpoints[rec.attempt.fetch.upstream]);
    AnonymousMeans(q);
  }

  lemma LastStoreOf(c: Config, s: State, e: Lru.Entry) returns (k: nat)
    requires HistoryInv(c, s) && e in s.cache
    ensures k < |s.ops| && Trace.LastStore(s.ops, e.key) == Some(k)
    ensures s.ops[k] == Trace.StoreOp(e.key, e.response, e.expires - c.ttl)
  {
    Trace.EntryIsLastStore(c.capacity, c.ttl, s.ops, e.key);
    var i :| 0 <= i < |s.cache| && s.cache[i] == e;
    Lru.LookupAt(s.cache, i);
    k := Trace.LastStore(s.ops, e.key).value;
  }

  /** Dispatching on the cache route is the lookup: the list moves as it says, and the session goes where its answer says. */
  lemma DispatchLooksUp(s: State, i: nat, rendered: string)
    requires i < |s.sessions| && CacheRoute(s.sessions[i].request)
    ensures var t, found := DispatchStep(s, i, rendered), Lru.Get(s.cache, s.sessions[i].request.target, s.now);
            && t.cache == found.list && |t.sessions| == |s.sessions|
            && t.sessions[i].pc
               == if found.result.Some? then HitFound(|s.ops|, found.result.value) else MissFound(|s.ops|)
  {
  }

  /**
   * Where a request goes: to the cache exactly if it is a GET without credentials for neither local target, to a local
   * response exactly for those two, and otherwise upstream past cache and coalescer.
   */
  lemma Routing(s: State, i: nat, rendered: string)
    requires i < |s.sessions| && s.sessions[i].pc.Dispatching?
    ensures var pc, q := DispatchStep(s, i, rendered).sessions[i].pc, s.sessions[i].request;
            && (pc.HitFound? || pc.MissFound? <==> MayUseCache(q))
            && (pc.Responding? <==> q.target == "/health" || q.target == "/metrics")
            && (pc == Selecting(None) <==> q.target != "/health" && q.target != "/metrics" && !MayUseCache(q))
  {
    AnonymousMeans(s.sessions[i].request);
  }

  lemma HitIsOnCacheRoute(s: State, i: nat, rendered: string)
    requires i < |s.sessions| && DispatchStep(s, i, rendered).sessions[i].pc.HitFound?
    ensures CacheRoute(s.sessions[i].request)
  {
  }

  /** Every hit serves the latest store of its key, younger than the time to live. */
  lemma HitIsFresh(c: Config, s: State, i: nat, rendered: string)
    requires Reachable(c, s) && i < |s.sessions| && s.sessions[i].pc.Dispatching?
    requires DispatchStep(s, i, rendered).sessions[i].pc.HitFound?
    ensures var key := s.sessions[i].request.target;
            && Trace.LastStore(s.ops, key).Some?
            && var store := s.ops[Trace.LastStore(s.ops, key).value];
            && DispatchStep(s, i, rendered).sessions[i].pc.cached == store.response
            && s.now < store.now + c.ttl
  {
    HitIsOnCacheRoute(s, i, rendered);
    DispatchLooksUp(s, i, rendered);
    assert s.cache == Trace.Run(c.capacity, c.ttl, [], s.ops) by { ReachableInv(c, s); }
    Trace.EntryIsLastStore(c.capacity, c.ttl, s.ops, s.sessions[i].request.target);
  }

  /**
   * Every answer from the cache was stored before its lookup, less than the time to live earlier, by a flight that
   * another request for the same target opened, and is the upstream's answer to that other request.
   */
  lemma CachedAnswer(c: Config, s: State, r: nat) returns (k: nat, q: nat, sent: Response)
    requires Reachable(c, s) && r < |s.log| && s.log[r].answers != [] && s.log[r].answers[0].source.FromCache?
    ensures var n := s.log[r].answers[0].source.lookup;
            && k < n < |s.ops| == |s.origins.cache| && s.ops[k].StoreOp? && s.ops[n].now < s.ops[k].now + c.ttl
            && StoredByAnother(s, k, s.log[r].request.target, r)
    ensures q == s.records[s.origins.cache[k]].opener && q != r && q < |s.log|
    ensures s.log[q].request.target == s.log[r].request.target && CacheRoute(s.log[q].request)
    ensures s.records[s.origins.cache[k]].attempt.Made?
    ensures var events := s.records[s.origins.cache[k]].attempt.fetch.events;
            |events| >= 4 && sent == events[3].response
    ensures SameContent(s.log[r].answers[0].response, s.ops[k].response)
    ensures Px.Relays(sent, s.log[r].answers[0].response) && Suits(s.log[r].answers[0].response, s.log[r].request)
  {
    AnswerExplained(c, s, r);
    var n := s.log[r].answers[0].source.lookup;
    Trace.HitIsFreshLastStore(c.capacity, c.ttl, s.ops, n);
    k := Trace.LastStore(s.ops[..n], s.ops[n].key).value;
    q, sent := StoreExplained(c, s, k);
    FitMeans(s.ops[k].response, s.log[r].request);
    NotTheOpener(c, s, r, s.origins.cache[k]);
  }

  /** Every store is of the upstream's answer to the request that opened its flight. */
  lemma StoreExplained(c: Config, s: State, k: nat) returns (q: nat, sent: Response)
    requires Reachable(c, s) && k < |s.ops| && s.ops[k].StoreOp?
    ensures k < |s.origins.cache| && s.origins.cache[k] < |s.records|
    ensures var rec := s.records[s.origins.cache[k]];
            && rec.key == s.ops[k].key && rec.attempt.Made? && q == rec.opener < |s.log|
            && s.log[q].request.target == rec.key && CacheRoute(s.log[q].request)
            && |rec.attempt.fetch.events| >= 4 && sent == rec.attempt.fetch.events[3].response
            && Px.Relays(sent, s.ops[k].response) && Suits(s.ops[k].response, s.log[q].request)
  {
    assert LogInv(c, s) by { ReachableInv(c, s); }
    assert OpOk(s, k);
    var rec := s.records[s.origins.cache[k]];
    assert RecordOk(c, s, s.origins.cache[k]);
    q := rec.opener;
    GoodFetch(c, s, s.log[q].request, rec.attempt.fetch, rec.result.value);
    sent := rec.attempt.fetch.events[3].response;
  }

  lemma NotTheOpener(c: Config, s: State, r: nat, f: nat)
    requires Reachable(c, s) && Joined(s, r).None? && f < |s.records|
    ensures s.records[f].opener != r
  {
    ReachableViews(c, s);
    assert Joined(s, s.records[f].opener) == Some(f);
  }

  /** A request that is not a GET, or carries credentials, never touches the cache or the table of flights. */
  lemma BypassTouchesNothing(c: Config, s: State, i: nat, a: Action)
    requires Reachable(c, s) && i < |s.sessions| && Unanswered(s.sessions[i].pc) && !LocalRoute(s.sessions[i].request)
    requires s.sessions[i].request.verb != GetVerb || HasField(s.sessions[i].request.headers, AUTHORIZATION)
    requires Enabled(c, s, a) && (a.Advance? || a.UpstreamEvent?) && a.session == i
    ensures var t := Apply(c, s, a);
            t.cache == s.cache && t.ops == s.ops && t.flights == s.flights && t.records == s.records
  {
    assert SessionOk(c, s, s.sessions[i]) by { ReachableInv(c, s); }
    BypassPlaces(c, s, s.sessions[i]);
    if a.Advance? {
      BypassAdvances(c, s, i, a.rendered);
    }
  }

  /** The places a bypassing request can be in. */
  lemma BypassPlaces(c: Config, s: State, x: Session)
    requires SessionOk(c, s, x) && Unanswered(x.pc) && BypassRoute(x.request)
    ensures || x.pc.Counting? || x.pc.Dispatching? || x.pc.Responding?
            || (x.pc.Selecting? && x.pc.lead.None?) || (x.pc.Launching? && x.pc.lead.None?)
            || (x.pc.Fetching? && x.pc.lead.None?) || (x.pc.Fetched? && x.pc.lead.None?)
  {
  }

  lemma BypassAdvances(c: Config, s: State, i: nat, rendered: string)
    requires Sized(c, s) && i < |s.sessions| && CanAdvance(c, s.sessions[i]) && BypassRoute(s.sessions[i].request)
    requires var pc := s.sessions[i].pc;
             || pc.Counting? || pc.Dispatching? || pc.Responding? || (pc.Selecting? && pc.lead.None?)
             || (pc.Launching? && pc.lead.None?) || (pc.Fetched? && pc.lead.None?)
    ensures var t := AdvanceStep(c, s, i, rendered);
            t.cache == s.cache && t.ops == s.ops && t.flights == s.flights && t.records == s.records
  {
  }

  lemma JoinerMissed(c: Config, s: State, i: nat)
    requires Reachable(c, s) && i < |s.sessions| && s.sessions[i].pc.Joining?
    ensures Missed(c, s, s.sessions[i].request.target, s.sessions[i].id, s.sessions[i].pc.lookup)
    ensures s.cache == Trace.Run(c.capacity, c.ttl, [], s.ops)
  {
    ReachableInv(c, s);
    assert SessionOk(c, s, s.sessions[i]);
  }

  /** Store `k` was made after operation `n`, and what it stored is still there. */
  ghost predicate StoredSince(c: Config, ops: seq<Trace.Op>, n: nat, k: Option<nat>) {
    k.Some? && n < k.value && LruLaws.NotRemovedSince(c.capacity, c.ttl, ops, k.value)
  }

  /** A key that is absent after operation `n` is present at the end exactly if it was stored since and nothing removed it. */
  lemma PresentSince(c: Config, ops: seq<Trace.Op>, n: nat, key: string)
    requires ValidConfig(c) && n < |ops| && !Lru.Has(Trace.Run(c.capacity, c.ttl, [], ops[..n + 1]), key)
    ensures Lru.Has(Trace.Run(c.capacity, c.ttl, [], ops), key) <==> StoredSince(c, ops, n, Trace.LastStore(ops, key))
  {
    LruLaws.PresentExactly(c.capacity, c.ttl, ops, key);
    if Lru.Has(Trace.Run(c.capacity, c.ttl, [], ops), key) {
      Trace.AbsentThenPresent(c.capacity, c.ttl, ops, n + 1, key);
    }
  }

  /** An unexpired entry is a present key whose last store is younger than the time to live. */
  lemma LiveSince(c: Config, ops: seq<Trace.Op>, key: string, now: int)
    requires ValidConfig(c)
    ensures var l, store := Trace.Run(c.capacity, c.ttl, [], ops), Trace.LastStore(ops, key);
            (exists e :: e in l && e.key == key && now < e.expires) <==>
            Lru.Has(l, key) && store.Some? && now < ops[store.value].now + c.ttl
  {
    Trace.EntryIsLastStore(c.capacity, c.ttl, ops, key);
    LiveEntry(Trace.Run(c.capacity, c.ttl, [], ops), key, now);
  }

  /**
   * A joining session missed. A flight is about to start beside an entry for its key, if none is registered, exactly if
   * a flight of another request stored the key after this session's lookup and nothing has removed it since; and the
   * entry is unexpired exactly if the store is younger than the time to live.
   */
  lemma LateMiss(c: Config, s: State, i: nat)
    requires Reachable(c, s) && i < |s.sessions| && s.sessions[i].pc.Joining?
    ensures s.sessions[i].request.target !in s.flights ==> JoinStep(s, i).sessions[i].pc.LeaderJoined?
    ensures Looked(s, s.sessions[i].request.target, s.sessions[i].id, s.sessions[i].pc.lookup)
    ensures var x, store := s.sessions[i], Trace.LastStore(s.ops, s.sessions[i].request.target);
            && (Lru.Has(s.cache, x.request.target) <==> StoredSince(c, s.ops, x.pc.lookup, store))
            && ((exists e :: e in s.cache && e.key == x.request.target && s.now < e.expires) <==>
                StoredSince(c, s.ops, x.pc.lookup, store) && s.now < s.ops[store.value].now + c.ttl)
            && (store.Some? ==> StoredByAnother(s, store.value, x.request.target, x.id))
  {
    var x := s.sessions[i];
    JoinerMissed(c, s, i);
    PresentSince(c, s.ops, x.pc.lookup, x.request.target);
    LiveSince(c, s.ops, x.request.target, s.now);
    StoreHasFlight(c, s, x.request.target);
    if Trace.LastStore(s.ops, x.request.target).Some? {
      JoinerOpenedNothing(c, s, i, s.origins.cache[Trace.LastStore(s.ops, x.request.target).value]);
    }
  }

  /** Store `k` was made by a flight for this key that another request than `id` opened. */
  ghost predicate StoredByAnother(s: State, k: nat, key: string, id: nat) {
    && k < |s.origins.cache| && s.origins.cache[k] < |s.records|
    && s.records[s.origins.cache[k]].key == key && s.records[s.origins.cache[k]].opener != id
  }

  lemma JoinerOpenedNothing(c: Config, s: State, i: nat, f: nat)
    requires Reachable(c, s) && i < |s.sessions| && s.sessions[i].pc.Joining? && f < |s.records|
    ensures s.records[f].opener != s.sessions[i].id
  {
    assert HoldsOk(s, i) by { ReachableInv(c, s); }
    OwnView(s, i);
    assert Joined(s, s.sessions[i].id).None? by { ReachableViews(c, s); }
    NotTheOpener(c, s, s.sessions[i].id, f);
  }

  lemma StoreHasFlight(c: Config, s: State, key: string)
    requires Reachable(c, s)
    ensures var store := Trace.LastStore(s.ops, key);
            store.Some? ==>
              && |s.origins.cache| == |s.ops| && s.origins.cache[store.value] < |s.records|
              && s.records[s.origins.cache[store.value]].key == key
  {
    assert LogInv(c, s) by { ReachableInv(c, s); }
    var store := Trace.LastStore(s.ops, key);
    if store.Some? {
      assert OpOk(s, store.value);
    }
  }

  /** A request is answered from the cache exactly if it may be and the cache holds an unexpired entry for its target. */
  lemma LiveEntryIsHit(c: Config, s: State, i: nat, rendered: string)
    requires Reachable(c, s) && i < |s.sessions| && s.sessions[i].pc.Dispatching?
    ensures DispatchStep(s, i, rendered).sessions[i].pc.HitFound? <==>
            && MayUseCache(s.sessions[i].request)
            && exists e :: e in s.cache && e.key == s.sessions[i].request.target && s.now < e.expires
  {
    Routing(s, i, rendered);
    if MayUseCache(s.sessions[i].request) {
      AnonymousMeans(s.sessions[i].request);
      var key := s.sessions[i].request.target;
      assert s.cache == Trace.Run(c.capacity, c.ttl, [], s.ops) by { ReachableInv(c, s); }
      Trace.RunKeepsValid(c.capacity, c.ttl, [], s.ops);
      LiveEntry(s.cache, key, s.now);
      DispatchLooksUp(s, i, rendered);
    }
  }

  lemma LiveEntry(l: Lru.List, key: string, now: int)
    requires Lru.DistinctKeys(l)
    ensures Lru.Get(l, key, now).result.Some? <==> exists e :: e in l && e.key == key && now < e.expires
  {
    if e :| e in l && e.key == key && now < e.expires {
      var j :| 0 <= j < |l| && l[j] == e;
      Lru.LookupAt(l, j);
    }
  }

  // ---------- Counters ----------

  lemma {:induction false} TotalSign<T>(xs: seq<T>, w: T -> int)
    requires forall i :: 0 <= i < |xs| ==> w(xs[i]) >= 0
    ensures Total(xs, w) >= 0
    ensures (forall i :: 0 <= i < |xs| ==> w(xs[i]) == 0) ==> Total(xs, w) == 0
  {
    if xs != [] {
      TotalSign(xs[..|xs| - 1], w);
    }
  }

  /** The gauge is the number of sessions with a live proxy: it never drops below zero, so its cell never underflows. */
  lemma GaugeCountsProxies(c: Config, s: State)
    requires Reachable(c, s)
    ensures s.tally.inFlight == Total(Pcs(s.sessions), LiveProxy) >= 0
    ensures Total(Pcs(s.sessions), LiveProxy) < Metrics.MODULUS ==> Metrics.Reading(s.tally.inFlight) == Total(Pcs(s.sessions), LiveProxy)
  {
    ReachableInv(c, s);
    TotalSign(Pcs(s.sessions), LiveProxy);
    Metrics.GaugeIsTrue(s.tally.inFlight);
  }

  /** Counters never run ahead of what they count. */
  lemma CountersLag(c: Config, s: State)
    requires Reachable(c, s)
    ensures s.tally.durations <= s.tally.requests <= |s.log|
    ensures s.tally.leaders + s.tally.waiters <= s.tally.misses
    ensures s.tally.health + s.tally.scrapes + s.tally.hits + s.tally.misses + s.bypassed <= s.tally.requests
    ensures Sum(s.tally.selections) <= s.tally.proxied <= |PicksOf(c, s)|
  {
    ReachableInv(c, s);
    RequestsLag(s);
    FetchesLag(c, s);
  }

  lemma RequestsLag(s: State)
    requires RequestLaw(s) && CoalescingLaw(s) && AnswerLaw(s)
    ensures s.tally.durations <= s.tally.requests <= |s.log|
    ensures s.tally.leaders + s.tally.waiters <= s.tally.misses
    ensures s.tally.health + s.tally.scrapes + s.tally.hits + s.tally.misses + s.bypassed <= s.tally.requests
  {
    var pcs := Pcs(s.sessions);
    TotalSign(pcs, Uncounted);
    TotalSign(pcs, Unclassified);
    TotalSign(pcs, Unassigned);
    TotalSign(pcs, Open);
  }

  lemma FetchesLag(c: Config, s: State)
    requires ValidConfig(c) && FetchLaw(c, s)
    ensures Sum(s.tally.selections) <= s.tally.proxied <= |PicksOf(c, s)|
  {
    var pcs := Pcs(s.sessions);
    TotalSign(pcs, Unlabelled);
    TotalSign(pcs, Unlaunched);
  }

  // ---------- Rest ----------

  /** At rest nothing is in flight and everything is answered and accounted for. */
  lemma AtRest(c: Config, s: State)
    requires Reachable(c, s) && Quiescent(s)
    ensures s.flights == map[] && s.tally.inFlight == 0
    ensures forall r :: 0 <= r < |s.log| ==> |s.log[r].answers| == 1
    ensures |s.log| == s.tally.requests == s.tally.durations
    ensures s.tally.requests == s.tally.health + s.tally.scrapes + s.tally.hits + s.tally.misses + s.bypassed
    ensures s.tally.misses == s.tally.leaders + s.tally.waiters && s.tally.leaders == |s.records|
    ensures s.tally.proxied == Sum(s.tally.selections) == |PicksOf(c, s)|
    ensures s.tally.hits == Lookups(c, s.ops, true) && s.tally.misses == Lookups(c, s.ops, false)
    ensures s.tally.health == RequestsOn(s.log, HealthCheck) && s.tally.scrapes == RequestsOn(s.log, Scrape)
    ensures s.tally.hits + s.tally.misses == RequestsOn(s.log, Cached) && s.bypassed == RequestsOn(s.log, Bypass)
    ensures s.tally.leaders + s.bypassed == Fair.Selects(s.poolOps)
  {
    ReachableInv(c, s);
    NoFlightsAtRest(c, s);
    RequestsAtRest(s);
    RoutesAtRest(c, s);
    FetchesAtRest(c, s);
    forall r | 0 <= r < |s.log| ensures |s.log[r].answers| == 1 {
      assert LogOk(c, s, r);
    }
  }

  lemma NoFlightsAtRest(c: Config, s: State)
    requires Reachable(c, s) && Quiescent(s)
    ensures s.flights == map[]
  {
    forall k | k in s.flights ensures false {
      var i := KeyHasLeader(c, s, k);
    }
  }

  lemma RequestsAtRest(s: State)
    requires RequestLaw(s) && CoalescingLaw(s) && AnswerLaw(s) && Quiescent(s)
    ensures |s.log| == s.tally.requests == s.tally.durations
    ensures s.tally.requests == s.tally.health + s.tally.scrapes + s.tally.hits + s.tally.misses + s.bypassed
    ensures s.tally.misses == s.tally.leaders + s.tally.waiters && s.tally.leaders == |s.records|
  {
    var pcs := Pcs(s.sessions);
    TotalSign(pcs, Uncounted);
    TotalSign(pcs, Unclassified);
    TotalSign(pcs, Unassigned);
    TotalSign(pcs, NewLeader);
    TotalSign(pcs, Open);
  }

  lemma RoutesAtRest(c: Config, s: State)
    requires ValidConfig(c) && LookupLaw(c, s) && SelectionLaw(s) && (forall route :: RouteLaw(s, route)) && Quiescent(s)
    ensures s.tally.hits == Lookups(c, s.ops, true) && s.tally.misses == Lookups(c, s.ops, false)
    ensures s.tally.health == RequestsOn(s.log, HealthCheck) && s.tally.scrapes == RequestsOn(s.log, Scrape)
    ensures s.tally.hits + s.tally.misses == RequestsOn(s.log, Cached) && s.bypassed == RequestsOn(s.log, Bypass)
    ensures s.tally.leaders + s.bypassed == Fair.Selects(s.poolOps)
  {
    var pcs := Pcs(s.sessions);
    TotalSign(pcs, Found(true));
    TotalSign(pcs, Found(false));
    TotalSign(pcs, Unselected);
    RouteAtRest(s, HealthCheck);
    RouteAtRest(s, Scrape);
    RouteAtRest(s, Cached);
    RouteAtRest(s, Bypass);
  }

  lemma RouteAtRest(s: State, route: Route)
    requires RouteLaw(s, route) && Quiescent(s)
    ensures RequestsOn(s.log, route) == CountedOn(s, route)
  {
    TotalSign(AllUnrouted(s.sessions), Takes(route));
  }

  lemma FetchesAtRest(c: Config, s: State)
    requires ValidConfig(c) && GaugeLaw(s) && FetchLaw(c, s) && Quiescent(s)
    ensures s.tally.inFlight == 0
    ensures s.tally.proxied == Sum(s.tally.selections) == |PicksOf(c, s)|
  {
    var pcs := Pcs(s.sessions);
    TotalSign(pcs, LiveProxy);
    TotalSign(pcs, Unlabelled);
    TotalSign(pcs, Unlaunched);
  }

  function Work(actions: seq<Action>): nat {
    if actions == [] then 0 else Work(actions[..|actions| - 1]) + if IsWork(actions[|actions| - 1]) then 1 else 0
  }

  function Reads(actions: seq<Action>): nat {
    if actions == [] then 0
    else Reads(actions[..|actions| - 1]) + if actions[|actions| - 1].ReadRequest? then 1 else 0
  }

  /** In every run the work done is bounded by the requests read; with none read it is bounded by what was left to do. */
  lemma {:induction false} WorkIsBounded(c: Config, s: State, actions: seq<Action>)
    requires Reachable(c, s) && Legal(c, s, actions)
    ensures Work(actions) + Measure(After(c, s, actions)) <= Measure(s) + MAX_RANK * Reads(actions)
  {
    if actions != [] {
      var n := |actions| - 1;
      WorkIsBounded(c, s, actions[..n]);
      ReachableInv(c, s);
      RunInv(c, s, actions[..n]);
      MeasureMoves(c, After(c, s, actions[..n]), actions[n]);
    }
  }

  lemma LastIsApply(c: Config, s: State, actions: seq<Action>)
    requires actions != [] && Legal(c, s, actions)
    ensures var n := |actions| - 1;
            && Legal(c, s, actions[..n]) && Enabled(c, After(c, s, actions[..n]), actions[n])
            && After(c, s, actions) == Apply(c, After(c, s, actions[..n]), actions[n])
  {
    assert LastLegal(c, s, actions);
    assert After(c, s, actions) == LastStep(c, s, actions);
  }

  lemma OneMore(c: Config, s: State, actions: seq<Action>, a: Action)
    requires Legal(c, s, actions) && Enabled(c, After(c, s, actions), a)
    ensures Legal(c, s, actions + [a]) && After(c, s, actions + [a]) == Apply(c, After(c, s, actions), a)
  {
    var longer := actions + [a];
    assert longer[..|longer| - 1] == actions && longer[|longer| - 1] == a;
    assert LastLegal(c, s, longer);
    assert After(c, s, longer) == LastStep(c, s, longer);
  }

  lemma ReachableStep(c: Config, s: State, a: Action)
    requires Reachable(c, s) && Enabled(c, s, a)
    ensures Reachable(c, Apply(c, s, a))
  {
    var actions :| Legal(c, Init(c), actions) && After(c, Init(c), actions) == s;
    OneMore(c, Init(c), actions, a);
  }

  /** One piece of work, if there is any. */
  lemma WorkOnce(c: Config, s: State) returns (a: Action, t: State)
    requires Reachable(c, s) && !Quiescent(s)
    ensures IsWork(a) && Enabled(c, s, a) && t == Apply(c, s, a)
    ensures Reachable(c, t) && Measure(t) < Measure(s)
  {
    ReachableInv(c, s);
    a := Progress(c, s);
    t := Apply(c, s, a);
    WorkSinks(c, s, a);
    ReachableStep(c, s, a);
  }

  lemma WorkToRest(c: Config, s: State, done: seq<Action>, t: State) returns (actions: seq<Action>)
    requires Legal(c, s, done) && After(c, s, done) == t && Reachable(c, t)
    requires forall i :: 0 <= i < |done| ==> IsWork(done[i])
    ensures Legal(c, s, actions) && forall i :: 0 <= i < |actions| ==> IsWork(actions[i])
    ensures Quiescent(After(c, s, actions)) && |actions| <= |done| + Measure(t)
    decreases Measure(t)
  {
    if Quiescent(t) {
      actions := done;
    } else {
      var a, u := WorkOnce(c, t);
      OneMore(c, s, done, a);
      actions := WorkToRest(c, s, done + [a], u);
    }
  }

  /** From every reachable state, work alone leads to rest. */
  lemma ComesToRest(c: Config, s: State) returns (actions: seq<Action>)
    requires Reachable(c, s)
    ensures Legal(c, s, actions) && forall i :: 0 <= i < |actions| ==> IsWork(actions[i])
    ensures Quiescent(After(c, s, actions)) && |actions| <= Measure(s)
  {
    actions := WorkToRest(c, s, [], s);
  }

  // ---------- Load ----------

  /** No selection is wasted: the request that made it fetches, or has fetched, from the upstream selected. */
  lemma SelectionIsUsed(c: Config, s: State, k: nat, b: nat)
    requires Reachable(c, s) && Selected(c, s, k, Some(b))
    ensures k < |s.origins.pool| && s.origins.pool[k] < |s.log| && FetchOf(s, s.origins.pool[k]).Some?
    ensures var fetch := FetchOf(s, s.origins.pool[k]).value; fetch.pick == k && fetch.upstream == b
  {
    assert PickInv(c, s) by { ReachableViews(c, s); }
    assert PickTold(c, s, k);
  }

  lemma HealthyIsSelected(c: Config, s: State, from: nat, b: nat) returns (k: nat)
    requires ValidConfig(c) && from <= |s.poolOps|
    requires Fair.StaysHealthy(Fair.After(InitPool(c), s.poolOps[..from]), s.poolOps[from..], b)
    requires Fair.Selects(s.poolOps[from..]) >= |c.endpoints|
    ensures from <= k && Selected(c, s, k, Some(b))
  {
    var rest := s.poolOps[from..];
    var n := Fair.HealthyHasOp(InitPool(c), s.poolOps[..from], rest, b);
    k := from + n;
    assert s.poolOps[..from] + rest[..n] == s.poolOps[..k] && rest[n] == s.poolOps[k];
  }

  /** In any stretch of a run with as many selections as upstreams, one that stays healthy is fetched from, for some request. */
  lemma HealthyIsServed(c: Config, s: State, from: nat, b: nat) returns (r: nat, fetch: Fetch)
    requires Reachable(c, s) && from <= |s.poolOps|
    requires Fair.StaysHealthy(Fair.After(InitPool(c), s.poolOps[..from]), s.poolOps[from..], b)
    requires Fair.Selects(s.poolOps[from..]) >= |c.endpoints|
    ensures r < |s.log| && FetchOf(s, r) == Some(fetch) && fetch.upstream == b
    ensures from <= fetch.pick < |s.origins.pool| && s.origins.pool[fetch.pick] == r
  {
    var k := HealthyIsSelected(c, s, from, b);
    SelectionIsUsed(c, s, k, b);
    r := s.origins.pool[k];
    fetch := FetchOf(s, r).value;
  }

  /** At rest, the selection counters of backends never marked unhealthy agree to within one. */
  lemma BalancedCounters(c: Config, s: State, a: nat, b: nat)
    requires Reachable(c, s) && Quiescent(s) && DistinctEndpoints(c)
    requires Fair.StaysHealthy(InitPool(c), s.poolOps, a) && Fair.StaysHealthy(InitPool(c), s.poolOps, b)
    ensures |s.tally.selections| == |c.endpoints|
    ensures -1 <= s.tally.selections[a] as int - s.tally.selections[b] as int <= 1
  {
    assert Sized(c, s) by { ReachableInv(c, s); }
    Fair.EqualShares(InitPool(c), s.poolOps, a, b);
    assert UpstreamLaw(c, s, a) && UpstreamLaw(c, s, b) by { ReachableInv(c, s); }
    TotalSign(Pcs(s.sessions), Owing(a));
    TotalSign(Pcs(s.sessions), Owing(b));
  }
}
