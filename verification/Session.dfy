/**
 * The request path as a transition system. Sessions run on different threads; a step is one critical section, one
 * counter update or one handler, so steps of different sessions interleave in every way. The outcomes of reads,
 * writes and upstream operations, the clock and the health of backends are free.
 */
module Session {
  import opened Http
  import opened Endpoints
  import opened Coalescing
  import opened Metrics
  import Lru = RecencyList
  import Trace = CacheTraces
  import Pool = UpstreamPools
  import Fair = PoolFairness
  import Px = Proxying

  datatype Config = Config(capacity: nat, ttl: int, endpoints: seq<Endpoint>)

  predicate ValidConfig(c: Config) {
    c.capacity > 0 && c.endpoints != []
  }

  // ---------- Sessions ----------

  /** What is counted when a fetch is launched, in order. */
  datatype Stage = CountFetch | CountUpstream | RaiseGauge

  /** A fetch: the pool operation that selected its upstream, the upstream, and how its operations have ended so far. */
  datatype Fetch = Fetch(pick: nat, upstream: nat, events: seq<Px.Event>)

  /** Where a response that is about to be written came from. */
  datatype Source =
    | Local(rendered: string)
    | FromCache(lookup: nat)
    | FromFlight(flight: nat)
    | FromFetch(fetch: Fetch)
    | NoUpstream(pick: nat)

  /** Where a session is. `lead` is the flight it leads, or none for a request that bypasses cache and coalescer. */
  datatype PC =
    | Reading
    | Counting
    | Dispatching
    | HitFound(lookup: nat, cached: Response)
    | MissFound(lookup: nat)
    | Joining(lookup: nat)
    | FollowerJoined(flight: nat)
    | Awaiting(flight: nat)
    | LeaderJoined(flight: nat)
    | Selecting(lead: Option<nat>)
    | Launching(lead: Option<nat>, fetch: Fetch, stage: Stage)
    | Fetching(lead: Option<nat>, fetch: Fetch, proxy: Px.Proxy)
    | Fetched(lead: Option<nat>, fetch: Fetch, response: Response)
    | Storing(flight: nat, response: Response, shouldCache: bool)
    | Completing(flight: nat, response: Response)
    | Posting(flight: nat, response: Response, waiters: seq<nat>)
    | Responding(response: Response, source: Source)
    | Writing
    | Closed

  /** A response posted to a session's strand; it runs once the session's current handler has returned. */
  datatype Delivery = Delivery(flight: nat, response: Response)

  /** `id` numbers the current request; `inbox` is the strand's queue of posted deliveries. */
  datatype Session = Session(pc: PC, id: nat, request: Request, inbox: seq<Delivery>)

  const NO_REQUEST := Request(OtherVerb(""), "", 0, false, [], "")

  // ---------- History ----------

  /** A response whose write was started, and where it came from. */
  datatype Answer = Answer(source: Source, response: Response)

  datatype RequestRecord = RequestRecord(request: Request, holder: nat, answers: seq<Answer>)

  /** How a flight came to its result: no upstream could be selected, or one was fetched from. */
  datatype Attempt = NotYet | Refused(pick: nat) | Made(fetch: Fetch)

  /**
   * `opener` is the request that started the flight, and `stored` the number of the cache operation that stored its
   * result if it was stored.
   */
  datatype FlightRecord = FlightRecord(
    key: string, leader: nat, opener: nat, result: Option<Response>, attempt: Attempt, stored: Option<nat>)

  /**
   * Who did what: the request that made each lookup or the flight that made each store, the request that made each
   * selection (a health change has none, and 0 stands there), and the flight that each request joined, as its leader
   * or as a waiter.
   */
  datatype Origins = Origins(cache: seq<nat>, pool: seq<nat>, joins: map<nat, nat>)

  /** Shared objects first; then what only the proofs look at: every request, flight, cache and pool operation so far. */
  datatype State = State(
    now: int,
    sessions: seq<Session>,
    flights: Flights<nat>,
    cache: Lru.List,
    pool: Pool.PoolState,
    tally: Tally,
    log: seq<RequestRecord>,
    records: seq<FlightRecord>,
    current: map<string, nat>,
    ops: seq<Trace.Op>,
    origins: Origins,
    poolOps: seq<Fair.PoolOp>,
    bypassed: nat)

  function InitPool(c: Config): (p: Pool.PoolState)
    requires ValidConfig(c)
    ensures Pool.ValidPool(p) && |p.healthy| == |c.endpoints|
  {
    Pool.PoolState(seq(|c.endpoints|, i => true), 0)
  }

  function Init(c: Config): State
    requires ValidConfig(c)
  {
    State(0, [], map[], [], InitPool(c), EmptyTally(|c.endpoints|), [], [], map[], [], Origins([], [], map[]), [], 0)
  }

  /** What every step relies on: indices fit the configuration. */
  predicate Sized(c: Config, s: State) {
    && ValidConfig(c)
    && Pool.ValidPool(s.pool) && |s.pool.healthy| == |c.endpoints| == |s.tally.selections|
  }

  // ---------- Routes ----------

  predicate LocalRoute(q: Request) {
    IsHealthRequest(q) || q.target == METRICS_TARGET
  }

  /** The requests that use the cache and the coalescer. */
  predicate CacheRoute(q: Request) {
    !LocalRoute(q) && CacheableRequest(q)
  }

  predicate BypassRoute(q: Request) {
    !LocalRoute(q) && !CacheableRequest(q)
  }

  function LocalResponse(q: Request, rendered: string): Response {
    if IsHealthRequest(q) || q.verb != GetVerb then HandleRequest(q)
    else Response(200, q.version, q.keepAlive, [Header("Content-Type", "text/plain; version=0.0.4")], rendered)
  }

  // ---------- Steps of one session ----------

  function At(s: State, i: nat, pc: PC): State
    requires i < |s.sessions|
  {
    s.(sessions := s.sessions[i := s.sessions[i].(pc := pc)])
  }

  function CountRequestStep(s: State, i: nat): State
    requires i < |s.sessions|
  {
    At(s, i, Dispatching).(tally := s.tally.(requests := s.tally.requests + 1))
  }

  /** Routing; for a cacheable request this is the locked cache lookup. */
  function DispatchStep(s: State, i: nat, rendered: string): State
    requires i < |s.sessions|
  {
    var x := s.sessions[i];
    var q := x.request;
    if IsHealthRequest(q) then
      At(s, i, Responding(LocalResponse(q, rendered), Local(rendered))).(tally := s.tally.(health := s.tally.health + 1))
    else if q.target == METRICS_TARGET then
      At(s, i, Responding(LocalResponse(q, rendered), Local(rendered))).(tally := s.tally.(scrapes := s.tally.scrapes + 1))
    else if CacheableRequest(q) then
      var found := Lru.Get(s.cache, q.target, s.now);
      At(s, i, if found.result.Some? then HitFound(|s.ops|, found.result.value) else MissFound(|s.ops|)).(
        cache := found.list, ops := s.ops + [Trace.LookupOp(q.target, s.now)],
        origins := s.origins.(cache := s.origins.cache + [x.id]))
    else
      At(s, i, Selecting(None)).(bypassed := s.bypassed + 1)
  }

  function CountHitStep(s: State, i: nat): State
    requires i < |s.sessions| && s.sessions[i].pc.HitFound?
  {
    var x := s.sessions[i];
    At(s, i, Responding(Fit(x.pc.cached, x.request), FromCache(x.pc.lookup))).(
      tally := s.tally.(hits := s.tally.hits + 1))
  }

  function CountMissStep(s: State, i: nat): State
    requires i < |s.sessions| && s.sessions[i].pc.MissFound?
  {
    At(s, i, Joining(s.sessions[i].pc.lookup)).(tally := s.tally.(misses := s.tally.misses + 1))
  }

  /** The locked join: the session leads a new flight or waits on the one under its key. */
  function JoinStep(s: State, i: nat): State
    requires i < |s.sessions|
  {
    var x := s.sessions[i];
    var key := x.request.target;
    if RoleOf(s.flights, key) == Leader then
      At(s, i, LeaderJoined(|s.records|)).(
        flights := Joined(s.flights, key, i), current := s.current[key := |s.records|],
        origins := s.origins.(joins := s.origins.joins[x.id := |s.records|]),
        records := s.records + [FlightRecord(key, i, x.id, None, NotYet, None)])
    else
      var f := if key in s.current then s.current[key] else 0;
      At(s, i, FollowerJoined(f)).(
        flights := Joined(s.flights, key, i), origins := s.origins.(joins := s.origins.joins[x.id := f]))
  }

  function CountFollowerStep(s: State, i: nat): State
    requires i < |s.sessions| && s.sessions[i].pc.FollowerJoined?
  {
    At(s, i, Awaiting(s.sessions[i].pc.flight)).(tally := s.tally.(waiters := s.tally.waiters + 1))
  }

  function CountLeaderStep(s: State, i: nat): State
    requires i < |s.sessions| && s.sessions[i].pc.LeaderJoined?
  {
    At(s, i, Selecting(Some(s.sessions[i].pc.flight))).(tally := s.tally.(leaders := s.tally.leaders + 1))
  }

  /** The result of a flight is settled; its leader goes on to store and complete. */
  function Settle(s: State, i: nat, f: nat, r: Response, attempt: Attempt): State
    requires i < |s.sessions|
  {
    At(s, i, Storing(f, r, attempt.Made?)).(
      records := if f < |s.records| then s.records[f := s.records[f].(result := Some(r), attempt := attempt)] else s.records)
  }

  /** The locked selection of an upstream. */
  function SelectStep(c: Config, s: State, i: nat): State
    requires Sized(c, s) && i < |s.sessions| && s.sessions[i].pc.Selecting?
  {
    var lead := s.sessions[i].pc.lead;
    var q := s.sessions[i].request;
    var pick := |s.poolOps|;
    var t := s.(pool := Pool.SelectState(s.pool), poolOps := s.poolOps + [Fair.SelectOp],
                origins := s.origins.(pool := s.origins.pool + [s.sessions[i].id]));
    match Pool.Choice(s.pool)
    case Some(u) => At(t, i, Launching(lead, Fetch(pick, u, []), CountFetch))
    case None =>
      if lead.None? then At(t, i, Responding(ServiceUnavailable(q), NoUpstream(pick)))
      else Settle(t, i, lead.value, ServiceUnavailable(q), Refused(pick))
  }

  function LaunchTally(c: Config, tally: Tally, upstream: nat, stage: Stage): (after: Tally)
    requires |tally.selections| == |c.endpoints| && upstream < |c.endpoints|
    ensures |after.selections| == |c.endpoints|
  {
    match stage
    case CountFetch => tally.(proxied := tally.proxied + 1)
    case CountUpstream => CountSelection(tally, Labels(c.endpoints), Label(c.endpoints[upstream]))
    case RaiseGauge => tally.(inFlight := tally.inFlight + 1)
  }

  function LaunchStep(c: Config, s: State, i: nat): State
    requires Sized(c, s) && i < |s.sessions| && s.sessions[i].pc.Launching?
    requires s.sessions[i].pc.fetch.upstream < |c.endpoints|
  {
    var x := s.sessions[i];
    var Launching(lead, fetch, stage) := x.pc;
    var next :=
      match stage
      case CountFetch => x.pc.(stage := CountUpstream)
      case CountUpstream => x.pc.(stage := RaiseGauge)
      case RaiseGauge => Fetching(lead, fetch, Px.Start(x.request, c.endpoints[fetch.upstream]));
    At(s, i, next).(tally := LaunchTally(c, s.tally, fetch.upstream, stage))
  }

  /** The proxy's completion handler: the gauge drops, then the response is used. */
  function FetchedStep(s: State, i: nat): State
    requires i < |s.sessions| && s.sessions[i].pc.Fetched?
  {
    var Fetched(lead, fetch, r) := s.sessions[i].pc;
    var t := s.(tally := s.tally.(inFlight := s.tally.inFlight - 1));
    if lead.None? then At(t, i, Responding(Fit(r, s.sessions[i].request), FromFetch(fetch)))
    else Settle(t, i, lead.value, r, Made(fetch))
  }

  /** The locked store, if the response may be cached. */
  function StoreStep(c: Config, s: State, i: nat): State
    requires ValidConfig(c) && i < |s.sessions| && s.sessions[i].pc.Storing?
  {
    var x := s.sessions[i];
    var Storing(f, r, shouldCache) := x.pc;
    var key := x.request.target;
    if shouldCache && CacheableResponse(r) then
      At(s, i, Completing(f, r)).(
        cache := Lru.Put(s.cache, c.capacity, c.ttl, key, r, s.now),
        ops := s.ops + [Trace.StoreOp(key, r, s.now)],
        origins := s.origins.(cache := s.origins.cache + [f]),
        records := if f < |s.records| then s.records[f := s.records[f].(stored := Some(|s.ops|))] else s.records)
    else
      At(s, i, Completing(f, r))
  }

  /** The locked part of `complete`. */
  function CompleteStep(s: State, i: nat): State
    requires i < |s.sessions| && s.sessions[i].pc.Completing?
  {
    var x := s.sessions[i];
    var key := x.request.target;
    At(s, i, Posting(x.pc.flight, x.pc.response, Released(s.flights, key))).(
      flights := s.flights - {key}, current := s.current - {key})
  }

  /** One turn of the loop over waiters, or its end. */
  function PostStep(s: State, i: nat): State
    requires i < |s.sessions| && s.sessions[i].pc.Posting?
  {
    var x := s.sessions[i];
    var Posting(f, r, ws) := x.pc;
    if ws == [] then
      At(s, i, Responding(Fit(r, x.request), FromFlight(f)))
    else
      var t := At(s, i, Posting(f, r, ws[1..]));
      var w := ws[0];
      if w < |t.sessions|
      then t.(sessions := t.sessions[w := t.sessions[w].(inbox := t.sessions[w].inbox + [Delivery(f, r)])])
      else t
  }

  /** A posted delivery runs. */
  function DeliverStep(s: State, i: nat): State
    requires i < |s.sessions| && s.sessions[i].inbox != []
  {
    var x := s.sessions[i];
    var d := x.inbox[0];
    s.(sessions := s.sessions[i :=
      x.(pc := Responding(Fit(d.response, x.request), FromFlight(d.flight)), inbox := x.inbox[1..])])
  }

  /** `write_response`: status and duration are recorded and the write starts. */
  function RespondStep(s: State, i: nat): State
    requires i < |s.sessions| && s.sessions[i].pc.Responding?
  {
    var x := s.sessions[i];
    var Responding(r, source) := x.pc;
    At(s, i, Writing).(
      tally := CountStatus(s.tally, r.status).(durations := s.tally.durations + 1),
      log := if x.id < |s.log| then s.log[x.id := s.log[x.id].(answers := s.log[x.id].answers + [Answer(source, r)])] else s.log)
  }

  /** Whether the session can go on without an outside event. */
  predicate CanAdvance(c: Config, x: Session) {
    match x.pc
    case Reading => false
    case Fetching(_, _, _) => false
    case Writing => false
    case Closed => false
    case Awaiting(_) => x.inbox != []
    case Launching(_, fetch, _) => fetch.upstream < |c.endpoints|
    case _ => true
  }

  function AdvanceStep(c: Config, s: State, i: nat, rendered: string): State
    requires Sized(c, s) && i < |s.sessions| && CanAdvance(c, s.sessions[i])
  {
    match s.sessions[i].pc
    case Counting => CountRequestStep(s, i)
    case Dispatching => DispatchStep(s, i, rendered)
    case HitFound(_, _) => CountHitStep(s, i)
    case MissFound(_) => CountMissStep(s, i)
    case Joining(_) => JoinStep(s, i)
    case FollowerJoined(_) => CountFollowerStep(s, i)
    case LeaderJoined(_) => CountLeaderStep(s, i)
    case Selecting(_) => SelectStep(c, s, i)
    case Launching(_, _, _) => LaunchStep(c, s, i)
    case Fetched(_, _, _) => FetchedStep(s, i)
    case Storing(_, _, _) => StoreStep(c, s, i)
    case Completing(_, _) => CompleteStep(s, i)
    case Posting(_, _, _) => PostStep(s, i)
    case Responding(_, _) => RespondStep(s, i)
    case Awaiting(_) => DeliverStep(s, i)
    case _ => s
  }

  // ---------- The system ----------

  datatype Action =
    | AcceptSession
    | Tick(to: int)
    | SetHealth(index: nat, healthy: bool)
    | ReadRequest(session: nat, request: Request)
    | ReadFails(session: nat)
    | Advance(session: nat, rendered: string)
    | UpstreamEvent(session: nat, event: Px.Event)
    | WriteEnds(session: nat, again: bool)

  predicate Enabled(c: Config, s: State, a: Action) {
    && Sized(c, s)
    && match a
       case AcceptSession => true
       case Tick(to) => s.now <= to
       case SetHealth(_, _) => true
       case ReadRequest(i, _) => i < |s.sessions| && s.sessions[i].pc.Reading?
       case ReadFails(i) => i < |s.sessions| && s.sessions[i].pc.Reading?
       case Advance(i, _) => i < |s.sessions| && CanAdvance(c, s.sessions[i])
       case UpstreamEvent(i, _) => i < |s.sessions| && s.sessions[i].pc.Fetching? && s.sessions[i].pc.proxy.Pending?
       case WriteEnds(i, _) => i < |s.sessions| && s.sessions[i].pc.Writing?
  }

  function UpstreamStep(s: State, i: nat, e: Px.Event): State
    requires i < |s.sessions| && s.sessions[i].pc.Fetching? && s.sessions[i].pc.proxy.Pending?
  {
    var Fetching(lead, fetch, proxy) := s.sessions[i].pc;
    var after := fetch.(events := fetch.events + [e]);
    match Px.OnEvent(proxy, e)
    case Done(r) => At(s, i, Fetched(lead, after, r))
    case p => At(s, i, Fetching(lead, after, p))
  }

  function Apply(c: Config, s: State, a: Action): State
    requires Enabled(c, s, a)
  {
    match a
    case AcceptSession => s.(sessions := s.sessions + [Session(Reading, 0, NO_REQUEST, [])])
    case Tick(to) => s.(now := to)
    case SetHealth(index, healthy) =>
      s.(pool := Pool.SetHealthyState(s.pool, index, healthy), poolOps := s.poolOps + [Fair.HealthOp(index, healthy)],
         origins := s.origins.(pool := s.origins.pool + [0]))
    case ReadRequest(i, q) =>
      s.(sessions := s.sessions[i := s.sessions[i].(pc := Counting, id := |s.log|, request := q)],
         log := s.log + [RequestRecord(q, i, [])])
    case ReadFails(i) => At(s, i, Closed)
    case Advance(i, rendered) => AdvanceStep(c, s, i, rendered)
    case UpstreamEvent(i, e) => UpstreamStep(s, i, e)
    case WriteEnds(i, again) => At(s, i, if again then Reading else Closed)
  }

  // ---------- Runs ----------

  ghost predicate Legal(c: Config, s: State, actions: seq<Action>)
    decreases |actions|, 1
  {
    actions == [] || LastLegal(c, s, actions)
  }

  ghost predicate LastLegal(c: Config, s: State, actions: seq<Action>)
    requires actions != []
    decreases |actions|, 0
  {
    var before := actions[..|actions| - 1];
    Legal(c, s, before) && Enabled(c, After(c, s, before), actions[|actions| - 1])
  }

  /** The state after a run; an action that is not enabled does nothing. */
  ghost function After(c: Config, s: State, actions: seq<Action>): State
    decreases |actions|, 1
  {
    if actions == [] then s else LastStep(c, s, actions)
  }

  ghost function LastStep(c: Config, s: State, actions: seq<Action>): State
    requires actions != []
    decreases |actions|, 0
  {
    var t, a := After(c, s, actions[..|actions| - 1]), actions[|actions| - 1];
    if Enabled(c, t, a) then Apply(c, t, a) else t
  }
}
