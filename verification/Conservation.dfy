/** Conservation laws of the counters, exact at every step: what a counter lacks is what sessions are about to add. */
module Conservation {
  import opened Http
  import opened Endpoints
  import opened Metrics
  import opened Session
  import opened SessionInvariants
  import Pool = UpstreamPools
  import Fair = PoolFairness
  import Lru = RecencyList
  import Trace = CacheTraces
  import Px = Proxying

  function Pcs(sessions: seq<Session>): (pcs: seq<PC>)
    ensures |pcs| == |sessions|
    ensures forall i :: 0 <= i < |pcs| ==> pcs[i] == sessions[i].pc
  {
    seq(|sessions|, i requires 0 <= i < |sessions| => sessions[i].pc)
  }

  function Total<T>(xs: seq<T>, w: T -> int): int {
    if xs == [] then 0 else Total(xs[..|xs| - 1], w) + w(xs[|xs| - 1])
  }

  lemma {:induction false} TotalUpdate<T>(xs: seq<T>, i: nat, x: T, w: T -> int)
    requires i < |xs|
    ensures Total(xs[i := x], w) == Total(xs, w) - w(xs[i]) + w(x)
  {
    var n := |xs| - 1;
    var updated := xs[i := x];
    if i == n {
      assert updated[..n] == xs[..n];
    } else {
      TotalUpdate(xs[..n], i, x, w);
      assert updated[..n] == xs[..n][i := x];
    }
  }

  lemma TotalAppend<T>(xs: seq<T>, x: T, w: T -> int)
    ensures Total(xs + [x], w) == Total(xs, w) + w(x)
  {
    assert (xs + [x])[..|xs|] == xs;
  }

  function Sum(s: seq<nat>): nat {
    if s == [] then 0 else Sum(s[..|s| - 1]) + s[|s| - 1]
  }

  lemma {:induction false} SumRaise(s: seq<nat>, i: nat)
    requires i < |s|
    ensures Sum(s[i := s[i] + 1]) == Sum(s) + 1
  {
    var n := |s| - 1;
    var updated := s[i := s[i] + 1];
    if i == n {
      assert updated[..n] == s[..n];
    } else {
      SumRaise(s[..n], i);
      assert updated[..n] == s[..n][i := s[i] + 1];
    }
  }

  // ---------- Who is about to count what ----------

  function One(b: bool): int {
    if b then 1 else 0
  }

  /** Read but not counted as a request. */
  function Uncounted(pc: PC): int { One(pc.Counting?) }

  /** Counted as a request but not yet under a route, a hit or a miss. */
  function Unclassified(pc: PC): int { One(pc.Dispatching? || pc.HitFound? || pc.MissFound?) }

  /** Counted as a miss but not yet as a leader or a waiter. */
  function Unassigned(pc: PC): int { One(pc.Joining? || pc.LeaderJoined? || pc.FollowerJoined?) }

  /** Leading but not counted as a leader. */
  function NewLeader(pc: PC): int { One(pc.LeaderJoined?) }

  /** Holding a live proxy. */
  function LiveProxy(pc: PC): int { One(pc.Fetching? || pc.Fetched?) }

  /** With an upstream selected but the fetch not counted. */
  function Unlaunched(pc: PC): int { One(pc.Launching? && pc.stage == CountFetch) }

  /** With the fetch counted but not its upstream. */
  function Unlabelled(pc: PC): int { One(pc.Launching? && pc.stage == CountUpstream) }

  /** Counted as a request and not answered. */
  function Open(pc: PC): int { One(Unanswered(pc) && !pc.Counting?) }

  /** With upstream `u` selected and not counted under it. */
  function Owing(u: nat): PC -> int {
    (pc: PC) => One(pc.Launching? && pc.stage != RaiseGauge && pc.fetch.upstream == u)
  }

  /** About to select an upstream. */
  function Unselected(pc: PC): int { One(pc.Selecting?) }

  /** With a lookup made that hit, or that missed, and is not counted. */
  function Found(hit: bool): PC -> int {
    (pc: PC) => One(if hit then pc.HitFound? else pc.MissFound?)
  }

  datatype Route = HealthCheck | Scrape | Cached | Bypass

  function RouteOf(q: Request): Route {
    if q.target == "/health" then HealthCheck
    else if q.target == "/metrics" then Scrape
    else if q.verb == GetVerb && Anonymous(q) then Cached
    else Bypass
  }

  lemma RouteMeans(q: Request)
    ensures RouteOf(q).HealthCheck? <==> IsHealthRequest(q)
    ensures RouteOf(q).Scrape? <==> !IsHealthRequest(q) && q.target == METRICS_TARGET
    ensures RouteOf(q).Cached? <==> CacheRoute(q)
    ensures RouteOf(q).Bypass? <==> BypassRoute(q)
  {
    AnonymousMeans(q);
  }

  /** The request a session has read and not yet routed. */
  function Unrouted(x: Session): Option<Request> {
    if x.pc.Counting? || x.pc.Dispatching? then Some(x.request) else None
  }

  function AllUnrouted(sessions: seq<Session>): (qs: seq<Option<Request>>)
    ensures |qs| == |sessions|
    ensures forall i :: 0 <= i < |qs| ==> qs[i] == Unrouted(sessions[i])
  {
    seq(|sessions|, i requires 0 <= i < |sessions| => Unrouted(sessions[i]))
  }

  function Takes(route: Route): Option<Request> -> int {
    (q: Option<Request>) => One(q.Some? && RouteOf(q.value) == route)
  }

  // ---------- The laws ----------

  ghost predicate DistinctEndpoints(c: Config) {
    forall i, j :: 0 <= i < j < |c.endpoints| ==> c.endpoints[i] != c.endpoints[j]
  }

  ghost function PicksOf(c: Config, s: State): seq<nat>
    requires ValidConfig(c)
  {
    Fair.Picks(InitPool(c), s.poolOps)
  }

  ghost predicate RequestLaw(s: State) {
    && |s.log| == s.tally.requests + Total(Pcs(s.sessions), Uncounted)
    && s.tally.requests == s.tally.health + s.tally.scrapes + s.tally.hits + s.tally.misses + s.bypassed
                           + Total(Pcs(s.sessions), Unclassified)
  }

  function RequestsOn(log: seq<RequestRecord>, route: Route): nat {
    if log == [] then 0
    else RequestsOn(log[..|log| - 1], route) + if RouteOf(log[|log| - 1].request) == route then 1 else 0
  }

  function CountedOn(s: State, route: Route): int {
    match route
    case HealthCheck => s.tally.health
    case Scrape => s.tally.scrapes
    case Cached => s.tally.hits + s.tally.misses + Total(Pcs(s.sessions), Found(true)) + Total(Pcs(s.sessions), Found(false))
    case Bypass => s.bypassed
  }

  /** Each request is counted under its own route. */
  ghost predicate RouteLaw(s: State, route: Route) {
    RequestsOn(s.log, route) == CountedOn(s, route) + Total(AllUnrouted(s.sessions), Takes(route))
  }

  /** How many lookups of a trace hit, or missed. */
  function Lookups(c: Config, ops: seq<Trace.Op>, hit: bool): nat
    requires ValidConfig(c)
  {
    if ops == [] then 0
    else
      var n := |ops| - 1;
      Lookups(c, ops[..n], hit)
      + if ops[n].LookupOp? && Trace.Answer(c.capacity, c.ttl, ops, n).Some? == hit then 1 else 0
  }

  /** Hits and misses are counted as the cache answered. */
  ghost predicate LookupLaw(c: Config, s: State)
    requires ValidConfig(c)
  {
    Lookups(c, s.ops, true) == AnsweredLookups(s, true) && Lookups(c, s.ops, false) == AnsweredLookups(s, false)
  }

  /** Every leader and every request that bypasses makes exactly one selection. */
  ghost predicate SelectionLaw(s: State) {
    s.tally.leaders + s.bypassed == Fair.Selects(s.poolOps) + Total(Pcs(s.sessions), Unselected)
  }

  ghost predicate CoalescingLaw(s: State) {
    && s.tally.misses == s.tally.leaders + s.tally.waiters + Total(Pcs(s.sessions), Unassigned)
    && |s.records| == s.tally.leaders + Total(Pcs(s.sessions), NewLeader)
  }

  ghost predicate GaugeLaw(s: State) {
    s.tally.inFlight == Total(Pcs(s.sessions), LiveProxy)
  }

  ghost predicate AnswerLaw(s: State) {
    s.tally.requests == s.tally.durations + Total(Pcs(s.sessions), Open)
  }

  /** How many answers have this status, or any status if none is given. */
  function AnswersIn(answers: seq<Answer>, status: Option<nat>): nat {
    if answers == [] then 0
    else
      AnswersIn(answers[..|answers| - 1], status)
      + if status.None? || answers[|answers| - 1].response.status == status.value then 1 else 0
  }

  function AnswersWith(log: seq<RequestRecord>, status: Option<nat>): nat {
    if log == [] then 0 else AnswersWith(log[..|log| - 1], status) + AnswersIn(log[|log| - 1].answers, status)
  }

  /** The gateway counters count the answers written with their status, and durations count all answers. */
  ghost predicate StatusLaw(s: State) {
    && s.tally.badGateway == AnswersWith(s.log, Some(502))
    && s.tally.unavailable == AnswersWith(s.log, Some(503))
    && s.tally.gatewayTimeout == AnswersWith(s.log, Some(504))
    && s.tally.durations == AnswersWith(s.log, None)
  }

  ghost predicate FetchLaw(c: Config, s: State)
    requires ValidConfig(c)
  {
    && s.tally.proxied == Sum(s.tally.selections) + Total(Pcs(s.sessions), Unlabelled)
    && |PicksOf(c, s)| == s.tally.proxied + Total(Pcs(s.sessions), Unlaunched)
  }

  ghost predicate UpstreamLaw(c: Config, s: State, u: nat)
    requires ValidConfig(c) && u < |s.tally.selections|
  {
    Fair.Share(PicksOf(c, s), u) == s.tally.selections[u] + Total(Pcs(s.sessions), Owing(u))
  }

  ghost predicate Laws(c: Config, s: State)
    requires ValidConfig(c)
  {
    && RequestLaw(s) && CoalescingLaw(s) && GaugeLaw(s) && AnswerLaw(s) && StatusLaw(s) && FetchLaw(c, s)
    && LookupLaw(c, s) && SelectionLaw(s) && (forall route :: RouteLaw(s, route))
    && (DistinctEndpoints(c) ==> forall u :: 0 <= u < |s.tally.selections| ==> UpstreamLaw(c, s, u))
  }

  // ---------- What a step counts ----------

  function Answered(log: seq<RequestRecord>, id: nat, answer: Answer): (after: seq<RequestRecord>)
    ensures |after| == |log|
  {
    if id < |log| then log[id := log[id].(answers := log[id].answers + [answer])] else log
  }

  /** How many flights were opened and requests bypassed. */
  ghost predicate Opened(s: State, t: State, flights: nat, bypasses: nat) {
    |t.records| == |s.records| + flights && t.bypassed == s.bypassed + bypasses
  }

  /** Nothing is opened, answered, looked up, selected or bypassed. */
  ghost predicate Level(s: State, t: State) {
    t.log == s.log && t.ops == s.ops && t.poolOps == s.poolOps && Opened(s, t, 0, 0)
  }

  /** A lookup of `key` is made, with the cache's answer. */
  ghost predicate LooksUp(s: State, t: State, key: string, hit: bool) {
    && t.ops == s.ops + [Trace.LookupOp(key, s.now)]
    && hit == Lru.Get(s.cache, key, s.now).result.Some?
  }

  ghost predicate MayStore(s: State, t: State) {
    || t.ops == s.ops
    || (|t.ops| == |s.ops| + 1 && t.ops[..|s.ops|] == s.ops && t.ops[|s.ops|].StoreOp? && t.ops[|s.ops|].now == s.now)
  }

  /** A step of session `i` as far as counting is concerned. */
  ghost predicate Counts(c: Config, s: State, t: State, i: nat) {
    && i < |s.sessions| == |t.sessions|
    && Pcs(t.sessions) == Pcs(s.sessions)[i := t.sessions[i].pc]
    && AllUnrouted(t.sessions) == AllUnrouted(s.sessions)[i := Unrouted(t.sessions[i])]
    && t.sessions[i].request == s.sessions[i].request && t.now == s.now
    && Sized(c, s)
    && var pc, a, b, q := t.sessions[i].pc, s.tally, t.tally, s.sessions[i].request;
       match s.sessions[i].pc
       case Counting => pc.Dispatching? && b == a.(requests := a.requests + 1) && Level(s, t)
       case Dispatching =>
         (match RouteOf(q)
          case HealthCheck => pc.Responding? && Level(s, t) && b == a.(health := a.health + 1)
          case Scrape => pc.Responding? && Level(s, t) && b == a.(scrapes := a.scrapes + 1)
          case Cached =>
            && (pc.HitFound? || pc.MissFound?) && LooksUp(s, t, q.target, pc.HitFound?)
            && b == a && t.log == s.log && t.poolOps == s.poolOps && Opened(s, t, 0, 0)
          case Bypass =>
            && pc == Selecting(None) && b == a
            && t.log == s.log && t.ops == s.ops && t.poolOps == s.poolOps && Opened(s, t, 0, 1))
       case HitFound(_, _) => pc.Responding? && b == a.(hits := a.hits + 1) && Level(s, t)
       case MissFound(_) => pc.Joining? && b == a.(misses := a.misses + 1) && Level(s, t)
       case Joining(_) =>
         || (pc.FollowerJoined? && b == a && Level(s, t))
         || (pc.LeaderJoined? && b == a
             && t.log == s.log && t.ops == s.ops && t.poolOps == s.poolOps && Opened(s, t, 1, 0))
       case FollowerJoined(_) => pc.Awaiting? && b == a.(waiters := a.waiters + 1) && Level(s, t)
       case LeaderJoined(_) => pc.Selecting? && b == a.(leaders := a.leaders + 1) && Level(s, t)
       case Selecting(_) =>
         && b == a && t.log == s.log && t.ops == s.ops && Opened(s, t, 0, 0) && t.poolOps == s.poolOps + [Fair.SelectOp]
         && (match Pool.Choice(s.pool)
             case None => pc.Responding? || pc.Storing?
             case Some(u) => pc.Launching? && pc.fetch.upstream == u && pc.stage == CountFetch)
       case Launching(_, fetch, stage) =>
         && Level(s, t) && fetch.upstream < |c.endpoints|
         && (match stage
             case CountFetch =>
               pc == s.sessions[i].pc.(stage := CountUpstream) && b == a.(proxied := a.proxied + 1)
             case CountUpstream =>
               && pc == s.sessions[i].pc.(stage := RaiseGauge)
               && b == CountSelection(a, Labels(c.endpoints), Label(c.endpoints[fetch.upstream]))
             case RaiseGauge => pc.Fetching? && b == a.(inFlight := a.inFlight + 1))
       case Fetching(_, _, _) => (pc.Fetching? || pc.Fetched?) && b == a && Level(s, t)
       case Fetched(_, _, _) => (pc.Responding? || pc.Storing?) && b == a.(inFlight := a.inFlight - 1) && Level(s, t)
       case Storing(_, _, _) =>
         pc.Completing? && b == a && t.log == s.log && t.poolOps == s.poolOps && Opened(s, t, 0, 0) && MayStore(s, t)
       case Completing(_, _) => pc.Posting? && b == a && Level(s, t)
       case Posting(_, _, _) => (pc.Posting? || pc.Responding?) && b == a && Level(s, t)
       case Awaiting(_) => pc.Responding? && b == a && Level(s, t)
       case Responding(r, source) =>
         && pc.Writing? && b == CountStatus(a, r.status).(durations := a.durations + 1)
         && t.ops == s.ops && t.poolOps == s.poolOps && Opened(s, t, 0, 0)
         && t.log == Answered(s.log, s.sessions[i].id, Answer(source, r))
       case _ => !Unanswered(s.sessions[i].pc) && !Unanswered(pc) && b == a && Level(s, t)
  }

  lemma MovePcs(s: State, i: nat, pc: PC)
    requires i < |s.sessions|
    ensures Pcs(At(s, i, pc).sessions) == Pcs(s.sessions)[i := pc]
    ensures AllUnrouted(At(s, i, pc).sessions) == AllUnrouted(s.sessions)[i := Unrouted(At(s, i, pc).sessions[i])]
  {
  }

  lemma ChosenCounts(c: Config, s: State, i: nat)
    requires Sized(c, s) && i < |s.sessions| && s.sessions[i].pc.Selecting? && Pool.Choice(s.pool).Some?
    ensures Counts(c, s, SelectStep(c, s, i), i)
  {
    MovePcs(s, i, SelectStep(c, s, i).sessions[i].pc);
  }

  lemma RefusedCounts(c: Config, s: State, i: nat)
    requires Sized(c, s) && i < |s.sessions| && s.sessions[i].pc.Selecting? && Pool.Choice(s.pool).None?
    ensures Counts(c, s, SelectStep(c, s, i), i)
  {
    MovePcs(s, i, SelectStep(c, s, i).sessions[i].pc);
  }

  lemma SelectCounts(c: Config, s: State, i: nat)
    requires Sized(c, s) && i < |s.sessions| && s.sessions[i].pc.Selecting?
    ensures Counts(c, s, SelectStep(c, s, i), i)
  {
    if Pool.Choice(s.pool).Some? {
      ChosenCounts(c, s, i);
    } else {
      RefusedCounts(c, s, i);
    }
  }

  lemma LaunchCounts(c: Config, s: State, i: nat)
    requires Sized(c, s) && i < |s.sessions| && s.sessions[i].pc.Launching?
    requires s.sessions[i].pc.fetch.upstream < |c.endpoints|
    ensures Counts(c, s, LaunchStep(c, s, i), i)
  {
    MovePcs(s, i, LaunchStep(c, s, i).sessions[i].pc);
  }

  lemma DispatchCounts(c: Config, s: State, i: nat, rendered: string)
    requires Sized(c, s) && i < |s.sessions| && s.sessions[i].pc.Dispatching?
    ensures Counts(c, s, DispatchStep(s, i, rendered), i)
  {
    MovePcs(s, i, DispatchStep(s, i, rendered).sessions[i].pc);
    RouteMeans(s.sessions[i].request);
  }

  lemma JoinCounts(c: Config, s: State, i: nat)
    requires Sized(c, s) && i < |s.sessions| && s.sessions[i].pc.Joining?
    ensures Counts(c, s, JoinStep(s, i), i)
  {
    MovePcs(s, i, JoinStep(s, i).sessions[i].pc);
  }

  lemma PostCounts(c: Config, s: State, i: nat)
    requires Sized(c, s) && i < |s.sessions| && s.sessions[i].pc.Posting?
    ensures Counts(c, s, PostStep(s, i), i)
  {
    var t := PostStep(s, i);
    assert |t.sessions| == |s.sessions|;
    forall j | 0 <= j < |s.sessions|
      ensures t.sessions[j].request == s.sessions[j].request && (j != i ==> t.sessions[j].pc == s.sessions[j].pc)
    {
    }
    assert Pcs(t.sessions) == Pcs(s.sessions)[i := t.sessions[i].pc];
    assert AllUnrouted(t.sessions) == AllUnrouted(s.sessions)[i := Unrouted(t.sessions[i])];
  }

  lemma FetchedCounts(c: Config, s: State, i: nat)
    requires Sized(c, s) && i < |s.sessions| && s.sessions[i].pc.Fetched?
    ensures Counts(c, s, FetchedStep(s, i), i)
  {
  }

  lemma StoreCounts(c: Config, s: State, i: nat)
    requires Sized(c, s) && i < |s.sessions| && s.sessions[i].pc.Storing?
    ensures Counts(c, s, StoreStep(c, s, i), i)
  {
  }

  lemma AnswerCounts(c: Config, s: State, i: nat)
    requires Sized(c, s) && i < |s.sessions|
    ensures s.sessions[i].pc.Completing? ==> Counts(c, s, CompleteStep(s, i), i)
    ensures s.sessions[i].pc.Responding? ==> Counts(c, s, RespondStep(s, i), i)
  {
  }

  lemma DeliverCounts(c: Config, s: State, i: nat)
    requires Sized(c, s) && i < |s.sessions| && s.sessions[i].pc.Awaiting? && s.sessions[i].inbox != []
    ensures Counts(c, s, DeliverStep(s, i), i)
  {
  }

  lemma CounterCounts(c: Config, s: State, i: nat)
    requires Sized(c, s) && i < |s.sessions|
    ensures s.sessions[i].pc.Counting? ==> Counts(c, s, CountRequestStep(s, i), i)
    ensures s.sessions[i].pc.HitFound? ==> Counts(c, s, CountHitStep(s, i), i)
    ensures s.sessions[i].pc.MissFound? ==> Counts(c, s, CountMissStep(s, i), i)
    ensures s.sessions[i].pc.FollowerJoined? ==> Counts(c, s, CountFollowerStep(s, i), i)
    ensures s.sessions[i].pc.LeaderJoined? ==> Counts(c, s, CountLeaderStep(s, i), i)
  {
    match s.sessions[i].pc
    case Counting => MovePcs(s, i, Dispatching);
    case HitFound(_, _) => MovePcs(s, i, CountHitStep(s, i).sessions[i].pc);
    case MissFound(_) => MovePcs(s, i, CountMissStep(s, i).sessions[i].pc);
    case FollowerJoined(_) => MovePcs(s, i, CountFollowerStep(s, i).sessions[i].pc);
    case LeaderJoined(_) => MovePcs(s, i, CountLeaderStep(s, i).sessions[i].pc);
    case _ =>
  }

  lemma AdvanceCounts(c: Config, s: State, i: nat, rendered: string)
    requires Sized(c, s) && i < |s.sessions| && CanAdvance(c, s.sessions[i])
    ensures Counts(c, s, AdvanceStep(c, s, i, rendered), i)
  {
    CounterCounts(c, s, i);
    AnswerCounts(c, s, i);
    match s.sessions[i].pc
    case Dispatching => DispatchCounts(c, s, i, rendered);
    case Joining(_) => JoinCounts(c, s, i);
    case Selecting(_) => SelectCounts(c, s, i);
    case Launching(_, _, _) => LaunchCounts(c, s, i);
    case Fetched(_, _, _) => FetchedCounts(c, s, i);
    case Storing(_, _, _) => StoreCounts(c, s, i);
    case Posting(_, _, _) => PostCounts(c, s, i);
    case Awaiting(_) => DeliverCounts(c, s, i);
    case _ =>
  }

  lemma UpstreamCounts(c: Config, s: State, i: nat, e: Px.Event)
    requires Sized(c, s) && i < |s.sessions| && s.sessions[i].pc.Fetching? && s.sessions[i].pc.proxy.Pending?
    ensures Counts(c, s, UpstreamStep(s, i, e), i)
  {
    MovePcs(s, i, UpstreamStep(s, i, e).sessions[i].pc);
  }

  // ---------- The laws are kept ----------

  lemma TotalMoves(c: Config, s: State, t: State, i: nat, w: PC -> int)
    requires Counts(c, s, t, i)
    ensures Total(Pcs(t.sessions), w) == Total(Pcs(s.sessions), w) - w(s.sessions[i].pc) + w(t.sessions[i].pc)
  {
    TotalUpdate(Pcs(s.sessions), i, t.sessions[i].pc, w);
  }

  lemma RequestLawKept(c: Config, s: State, t: State, i: nat)
    requires Counts(c, s, t, i) && RequestLaw(s)
    ensures RequestLaw(t)
  {
    TotalMoves(c, s, t, i, Uncounted);
    TotalMoves(c, s, t, i, Unclassified);
  }

  lemma LookupLawKept(c: Config, s: State, t: State, i: nat)
    requires HistoryInv(c, s) && Counts(c, s, t, i) && LookupLaw(c, s)
    ensures LookupLaw(c, t)
  {
    AnsweredMoves(c, s, t, i, true);
    AnsweredMoves(c, s, t, i, false);
    LookupsMove(c, s, t, i, true);
    LookupsMove(c, s, t, i, false);
  }

  /** Lookups counted as hits, or as misses, or about to be. */
  function AnsweredLookups(s: State, hit: bool): int {
    (if hit then s.tally.hits else s.tally.misses) + Total(Pcs(s.sessions), Found(hit))
  }

  lemma AnsweredMoves(c: Config, s: State, t: State, i: nat, hit: bool)
    requires Counts(c, s, t, i)
    ensures AnsweredLookups(t, hit) == AnsweredLookups(s, hit) + LookingUp(s.sessions[i], t.sessions[i].pc, hit)
  {
    TotalMoves(c, s, t, i, Found(hit));
  }

  /** One for the step whose lookup hits, or misses. */
  function LookingUp(x: Session, after: PC, hit: bool): int {
    One(x.pc.Dispatching? && RouteOf(x.request) == Cached && after.HitFound? == hit)
  }

  lemma LookupsMove(c: Config, s: State, t: State, i: nat, hit: bool)
    requires HistoryInv(c, s) && Counts(c, s, t, i)
    ensures Lookups(c, t.ops, hit) == Lookups(c, s.ops, hit) + LookingUp(s.sessions[i], t.sessions[i].pc, hit)
  {
    if t.ops != s.ops {
      LookupsGrow(c, s, t.ops, hit);
    }
  }

  lemma LookupsGrow(c: Config, s: State, ops: seq<Trace.Op>, hit: bool)
    requires HistoryInv(c, s) && |ops| == |s.ops| + 1 && ops[..|s.ops|] == s.ops
    ensures var op := ops[|s.ops|];
            Lookups(c, ops, hit) == Lookups(c, s.ops, hit)
              + if op.LookupOp? && Lru.Get(s.cache, op.key, op.now).result.Some? == hit then 1 else 0
  {
  }

  lemma SelectionLawKept(c: Config, s: State, t: State, i: nat)
    requires Counts(c, s, t, i) && SelectionLaw(s)
    ensures SelectionLaw(t)
  {
    TotalMoves(c, s, t, i, Unselected);
    if s.sessions[i].pc.Selecting? {
      assert t.poolOps[..|s.poolOps|] == s.poolOps;
    }
  }

  lemma {:induction false} AnswerKeepsRoutes(log: seq<RequestRecord>, id: nat, answer: Answer, route: Route)
    ensures RequestsOn(Answered(log, id, answer), route) == RequestsOn(log, route)
  {
    if log != [] {
      var n := |log| - 1;
      AnswerKeepsRoutes(log[..n], id, answer, route);
      assert Answered(log, id, answer)[..n] == Answered(log[..n], id, answer);
    }
  }

  /** One for the step that routes a request this way. */
  function Routing(x: Session, route: Route): int {
    One(x.pc.Dispatching? && RouteOf(x.request) == route)
  }

  lemma CountedMoves(c: Config, s: State, t: State, i: nat, route: Route)
    requires Counts(c, s, t, i)
    ensures CountedOn(t, route) == CountedOn(s, route) + Routing(s.sessions[i], route)
  {
    if route == Cached {
      TotalMoves(c, s, t, i, Found(true));
      TotalMoves(c, s, t, i, Found(false));
    }
  }

  lemma UnroutedMoves(c: Config, s: State, t: State, i: nat, route: Route)
    requires Counts(c, s, t, i)
    ensures Total(AllUnrouted(t.sessions), Takes(route))
            == Total(AllUnrouted(s.sessions), Takes(route)) - Routing(s.sessions[i], route)
  {
    TotalUpdate(AllUnrouted(s.sessions), i, Unrouted(t.sessions[i]), Takes(route));
    assert Takes(route)(Unrouted(t.sessions[i])) == Takes(route)(Unrouted(s.sessions[i])) - Routing(s.sessions[i], route);
  }

  lemma RoutesStay(c: Config, s: State, t: State, i: nat, route: Route)
    requires Counts(c, s, t, i)
    ensures RequestsOn(t.log, route) == RequestsOn(s.log, route)
  {
    var x := s.sessions[i];
    if x.pc.Responding? {
      AnswerKeepsRoutes(s.log, x.id, Answer(x.pc.source, x.pc.response), route);
    }
  }

  lemma RouteLawKept(c: Config, s: State, t: State, i: nat, route: Route)
    requires Counts(c, s, t, i) && RouteLaw(s, route)
    ensures RouteLaw(t, route)
  {
    CountedMoves(c, s, t, i, route);
    UnroutedMoves(c, s, t, i, route);
    RoutesStay(c, s, t, i, route);
  }

  lemma CoalescingLawKept(c: Config, s: State, t: State, i: nat)
    requires Counts(c, s, t, i) && CoalescingLaw(s)
    ensures CoalescingLaw(t)
  {
    TotalMoves(c, s, t, i, Unassigned);
    TotalMoves(c, s, t, i, NewLeader);
  }

  lemma GaugeLawKept(c: Config, s: State, t: State, i: nat)
    requires Counts(c, s, t, i) && GaugeLaw(s)
    ensures GaugeLaw(t)
  {
    TotalMoves(c, s, t, i, LiveProxy);
  }

  lemma AnswerLawKept(c: Config, s: State, t: State, i: nat)
    requires Counts(c, s, t, i) && AnswerLaw(s)
    ensures AnswerLaw(t)
  {
    TotalMoves(c, s, t, i, Open);
  }

  lemma {:induction false} AnswerIsCounted(log: seq<RequestRecord>, id: nat, answer: Answer, status: Option<nat>)
    requires id < |log|
    ensures AnswersWith(Answered(log, id, answer), status)
            == AnswersWith(log, status) + if status.None? || answer.response.status == status.value then 1 else 0
  {
    var n := |log| - 1;
    var after := Answered(log, id, answer);
    if id == n {
      assert after[..n] == log[..n];
      assert (log[n].answers + [answer])[..|log[n].answers|] == log[n].answers;
    } else {
      AnswerIsCounted(log[..n], id, answer, status);
      assert after[..n] == Answered(log[..n], id, answer);
    }
  }

  lemma AnswerKeepsStatus(s: State, t: State, i: nat)
    requires i < |s.sessions| && s.sessions[i].pc.Responding? && s.sessions[i].id < |s.log| && StatusLaw(s)
    requires t.tally == CountStatus(s.tally, s.sessions[i].pc.response.status).(durations := s.tally.durations + 1)
    requires t.log == Answered(s.log, s.sessions[i].id, Answer(s.sessions[i].pc.source, s.sessions[i].pc.response))
    ensures StatusLaw(t)
  {
    var id, answer := s.sessions[i].id, Answer(s.sessions[i].pc.source, s.sessions[i].pc.response);
    AnswerIsCounted(s.log, id, answer, Some(502));
    AnswerIsCounted(s.log, id, answer, Some(503));
    AnswerIsCounted(s.log, id, answer, Some(504));
    AnswerIsCounted(s.log, id, answer, None);
  }

  lemma StatusLawKept(c: Config, s: State, t: State, i: nat)
    requires Counts(c, s, t, i) && StatusLaw(s)
    requires s.sessions[i].pc.Responding? ==> s.sessions[i].id < |s.log|
    ensures StatusLaw(t)
  {
    if s.sessions[i].pc.Responding? {
      AnswerKeepsStatus(s, t, i);
    }
  }

  lemma PicksMove(c: Config, s: State, op: Fair.PoolOp)
    requires HistoryInv(c, s)
    ensures Fair.Picks(InitPool(c), s.poolOps + [op]) == PicksOf(c, s) + Fair.Picked(s.pool, op)
  {
    assert (s.poolOps + [op])[..|s.poolOps|] == s.poolOps;
  }

  lemma LabelRaisesSum(c: Config, t: Tally, u: nat)
    requires |t.selections| == |c.endpoints| && u < |c.endpoints|
    ensures Sum(CountSelection(t, Labels(c.endpoints), Label(c.endpoints[u])).selections) == Sum(t.selections) + 1
  {
    SelectionFindsItsEndpoint(c.endpoints, u);
    SumRaise(t.selections, FirstLabel(Labels(c.endpoints), Label(c.endpoints[u])).value);
  }

  lemma SelectionSumKept(c: Config, s: State, t: State, i: nat)
    requires Counts(c, s, t, i) && s.tally.proxied == Sum(s.tally.selections) + Total(Pcs(s.sessions), Unlabelled)
    ensures t.tally.proxied == Sum(t.tally.selections) + Total(Pcs(t.sessions), Unlabelled)
  {
    TotalMoves(c, s, t, i, Unlabelled);
    var pc := s.sessions[i].pc;
    if pc.Launching? && pc.stage == CountUpstream {
      LabelRaisesSum(c, s.tally, pc.fetch.upstream);
    }
  }

  lemma FetchLawKept(c: Config, s: State, t: State, i: nat)
    requires HistoryInv(c, s) && Counts(c, s, t, i) && FetchLaw(c, s)
    ensures FetchLaw(c, t)
  {
    SelectionSumKept(c, s, t, i);
    PickCountKept(c, s, t, i);
  }

  lemma PickCountKept(c: Config, s: State, t: State, i: nat)
    requires HistoryInv(c, s) && Counts(c, s, t, i)
    requires |PicksOf(c, s)| == s.tally.proxied + Total(Pcs(s.sessions), Unlaunched)
    ensures |PicksOf(c, t)| == t.tally.proxied + Total(Pcs(t.sessions), Unlaunched)
  {
    TotalMoves(c, s, t, i, Unlaunched);
    if s.sessions[i].pc.Selecting? {
      PicksMove(c, s, Fair.SelectOp);
    } else {
      assert t.poolOps == s.poolOps;
    }
  }

  /** What a selection changes. */
  lemma SelectionEffect(c: Config, s: State, t: State, i: nat, u: nat)
    requires Counts(c, s, t, i) && s.sessions[i].pc.Selecting?
    ensures t.poolOps == s.poolOps + [Fair.SelectOp] && t.tally == s.tally
    ensures Owing(u)(s.sessions[i].pc) == 0
    ensures Owing(u)(t.sessions[i].pc) == Fair.Share(Fair.Picked(s.pool, Fair.SelectOp), u)
  {
  }

  lemma ShareAdds(picks: seq<nat>, more: seq<nat>, u: nat)
    ensures Fair.Share(picks + more, u) == Fair.Share(picks, u) + Fair.Share(more, u)
  {
    assert multiset(picks + more) == multiset(picks) + multiset(more);
  }

  lemma PickMovesShare(c: Config, s: State, t: State, i: nat, u: nat)
    requires HistoryInv(c, s) && Counts(c, s, t, i) && s.sessions[i].pc.Selecting?
    requires u < |s.tally.selections| == |t.tally.selections| && UpstreamLaw(c, s, u)
    ensures UpstreamLaw(c, t, u)
  {
    TotalMoves(c, s, t, i, Owing(u));
    SelectionEffect(c, s, t, i, u);
    PicksMove(c, s, Fair.SelectOp);
    ShareAdds(PicksOf(c, s), Fair.Picked(s.pool, Fair.SelectOp), u);
  }

  lemma LabelMovesShare(c: Config, s: State, t: State, i: nat, u: nat)
    requires Counts(c, s, t, i) && DistinctEndpoints(c)
    requires s.sessions[i].pc.Launching? && s.sessions[i].pc.stage == CountUpstream
    requires u < |s.tally.selections| == |t.tally.selections| && UpstreamLaw(c, s, u)
    ensures UpstreamLaw(c, t, u)
  {
    TotalMoves(c, s, t, i, Owing(u));
    SelectionFindsItsEndpoint(c.endpoints, s.sessions[i].pc.fetch.upstream);
  }

  lemma ShareStays(c: Config, s: State, t: State, i: nat, u: nat)
    requires Counts(c, s, t, i) && !s.sessions[i].pc.Selecting?
    requires !(s.sessions[i].pc.Launching? && s.sessions[i].pc.stage == CountUpstream)
    requires u < |s.tally.selections| == |t.tally.selections| && UpstreamLaw(c, s, u)
    ensures UpstreamLaw(c, t, u)
  {
    TotalMoves(c, s, t, i, Owing(u));
    assert t.poolOps == s.poolOps && t.tally.selections == s.tally.selections;
  }

  lemma UpstreamLawKept(c: Config, s: State, t: State, i: nat, u: nat)
    requires HistoryInv(c, s) && Counts(c, s, t, i) && DistinctEndpoints(c)
    requires u < |s.tally.selections| == |t.tally.selections| && UpstreamLaw(c, s, u)
    ensures UpstreamLaw(c, t, u)
  {
    var pc := s.sessions[i].pc;
    if pc.Selecting? {
      PickMovesShare(c, s, t, i, u);
    } else if pc.Launching? && pc.stage == CountUpstream {
      LabelMovesShare(c, s, t, i, u);
    } else {
      ShareStays(c, s, t, i, u);
    }
  }

  lemma CountsKeepLaws(c: Config, s: State, t: State, i: nat)
    requires HistoryInv(c, s) && Counts(c, s, t, i) && Laws(c, s) && |t.tally.selections| == |s.tally.selections|
    requires s.sessions[i].pc.Responding? ==> s.sessions[i].id < |s.log|
    ensures Laws(c, t)
  {
    StatusLawKept(c, s, t, i);
    RequestLawKept(c, s, t, i);
    CoalescingLawKept(c, s, t, i);
    GaugeLawKept(c, s, t, i);
    AnswerLawKept(c, s, t, i);
    FetchLawKept(c, s, t, i);
    LookupLawKept(c, s, t, i);
    SelectionLawKept(c, s, t, i);
    forall route ensures RouteLaw(t, route) {
      RouteLawKept(c, s, t, i, route);
    }
    if DistinctEndpoints(c) {
      forall u | 0 <= u < |t.tally.selections| ensures UpstreamLaw(c, t, u) {
        UpstreamLawKept(c, s, t, i, u);
      }
    }
  }

  /** Reading a request opens it and starts its session. */
  lemma ReadTotals(c: Config, s: State, i: nat, q: Request, w: PC -> int)
    requires Enabled(c, s, ReadRequest(i, q))
    ensures Total(Pcs(Apply(c, s, ReadRequest(i, q)).sessions), w)
            == Total(Pcs(s.sessions), w) - w(Reading) + w(Counting)
  {
    assert Pcs(Apply(c, s, ReadRequest(i, q)).sessions) == Pcs(s.sessions)[i := Counting];
    TotalUpdate(Pcs(s.sessions), i, Counting, w);
  }

  lemma ReadKeepsLaws(c: Config, s: State, i: nat, q: Request)
    requires Enabled(c, s, ReadRequest(i, q)) && Laws(c, s)
    ensures Laws(c, Apply(c, s, ReadRequest(i, q)))
  {
    var t := Apply(c, s, ReadRequest(i, q));
    ReadKeepsRequestLaws(c, s, i, q);
    ReadKeepsFetchLaws(c, s, i, q);
    forall route ensures RouteLaw(t, route) {
      assert RouteLaw(s, route);
      ReadKeepsRouteLaw(c, s, i, q, route);
    }
    forall u | 0 <= u < |s.tally.selections| && UpstreamLaw(c, s, u) ensures UpstreamLaw(c, t, u) {
      ReadTotals(c, s, i, q, Owing(u));
    }
  }

  lemma UnansweredAdd(log: seq<RequestRecord>, rec: RequestRecord)
    requires rec.answers == []
    ensures forall status :: AnswersWith(log + [rec], status) == AnswersWith(log, status)
  {
    assert (log + [rec])[..|log|] == log;
  }

  lemma ReadKeepsRequestLaws(c: Config, s: State, i: nat, q: Request)
    requires Enabled(c, s, ReadRequest(i, q)) && RequestLaw(s) && CoalescingLaw(s) && AnswerLaw(s) && StatusLaw(s)
    ensures var t := Apply(c, s, ReadRequest(i, q)); RequestLaw(t) && CoalescingLaw(t) && AnswerLaw(t) && StatusLaw(t)
  {
    ReadTotals(c, s, i, q, Uncounted);
    ReadTotals(c, s, i, q, Unclassified);
    ReadTotals(c, s, i, q, Unassigned);
    ReadTotals(c, s, i, q, NewLeader);
    ReadTotals(c, s, i, q, Open);
    UnansweredAdd(s.log, RequestRecord(q, i, []));
  }

  lemma ReadKeepsFetchLaws(c: Config, s: State, i: nat, q: Request)
    requires Enabled(c, s, ReadRequest(i, q)) && GaugeLaw(s) && FetchLaw(c, s) && LookupLaw(c, s) && SelectionLaw(s)
    ensures var t := Apply(c, s, ReadRequest(i, q)); GaugeLaw(t) && FetchLaw(c, t) && LookupLaw(c, t) && SelectionLaw(t)
  {
    ReadTotals(c, s, i, q, LiveProxy);
    ReadTotals(c, s, i, q, Unlabelled);
    ReadTotals(c, s, i, q, Unlaunched);
    ReadTotals(c, s, i, q, Unselected);
    ReadTotals(c, s, i, q, Found(true));
    ReadTotals(c, s, i, q, Found(false));
  }

  lemma ReadKeepsRouteLaw(c: Config, s: State, i: nat, q: Request, route: Route)
    requires Enabled(c, s, ReadRequest(i, q)) && RouteLaw(s, route)
    ensures RouteLaw(Apply(c, s, ReadRequest(i, q)), route)
  {
    var t := Apply(c, s, ReadRequest(i, q));
    ReadTotals(c, s, i, q, Found(true));
    ReadTotals(c, s, i, q, Found(false));
    assert AllUnrouted(t.sessions) == AllUnrouted(s.sessions)[i := Some(q)];
    TotalUpdate(AllUnrouted(s.sessions), i, Some(q), Takes(route));
    assert t.log[..|s.log|] == s.log;
  }

  lemma AcceptKeepsTotals(s: State, w: PC -> int)
    requires w(Reading) == 0
    ensures Total(Pcs(s.sessions + [Session(Reading, 0, NO_REQUEST, [])]), w) == Total(Pcs(s.sessions), w)
  {
    assert Pcs(s.sessions + [Session(Reading, 0, NO_REQUEST, [])]) == Pcs(s.sessions) + [Reading];
    TotalAppend(Pcs(s.sessions), Reading, w);
  }

  lemma AcceptKeepsRouteLaw(c: Config, s: State, route: Route)
    requires Sized(c, s) && RouteLaw(s, route)
    ensures RouteLaw(Apply(c, s, AcceptSession), route)
  {
    AcceptKeepsTotals(s, Found(true));
    AcceptKeepsTotals(s, Found(false));
    var t := Apply(c, s, AcceptSession);
    assert AllUnrouted(t.sessions) == AllUnrouted(s.sessions) + [None];
    TotalAppend(AllUnrouted(s.sessions), None, Takes(route));
  }

  lemma AcceptKeepsRequestLaws(c: Config, s: State)
    requires Sized(c, s) && RequestLaw(s) && CoalescingLaw(s) && AnswerLaw(s) && StatusLaw(s)
    ensures var t := Apply(c, s, AcceptSession); RequestLaw(t) && CoalescingLaw(t) && AnswerLaw(t) && StatusLaw(t)
  {
    AcceptKeepsTotals(s, Uncounted);
    AcceptKeepsTotals(s, Unclassified);
    AcceptKeepsTotals(s, Unassigned);
    AcceptKeepsTotals(s, NewLeader);
    AcceptKeepsTotals(s, Open);
  }

  lemma AcceptKeepsFetchLaws(c: Config, s: State)
    requires Sized(c, s) && GaugeLaw(s) && FetchLaw(c, s) && LookupLaw(c, s) && SelectionLaw(s)
    ensures var t := Apply(c, s, AcceptSession); GaugeLaw(t) && FetchLaw(c, t) && LookupLaw(c, t) && SelectionLaw(t)
  {
    AcceptKeepsTotals(s, LiveProxy);
    AcceptKeepsTotals(s, Unlabelled);
    AcceptKeepsTotals(s, Unlaunched);
    AcceptKeepsTotals(s, Unselected);
    AcceptKeepsTotals(s, Found(true));
    AcceptKeepsTotals(s, Found(false));
  }

  lemma AcceptKeepsLaws(c: Config, s: State)
    requires Sized(c, s) && Laws(c, s)
    ensures Laws(c, Apply(c, s, AcceptSession))
  {
    var t := Apply(c, s, AcceptSession);
    AcceptKeepsRequestLaws(c, s);
    AcceptKeepsFetchLaws(c, s);
    forall route ensures RouteLaw(t, route) {
      assert RouteLaw(s, route);
      AcceptKeepsRouteLaw(c, s, route);
    }
    forall u | 0 <= u < |t.tally.selections| && UpstreamLaw(c, s, u) ensures UpstreamLaw(c, t, u) {
      AcceptKeepsTotals(s, Owing(u));
    }
  }

  lemma IdleCounts(c: Config, s: State, i: nat, pc: PC)
    requires Sized(c, s) && i < |s.sessions| && !Unanswered(s.sessions[i].pc) && !Unanswered(pc)
    ensures Counts(c, s, At(s, i, pc), i)
  {
    MovePcs(s, i, pc);
  }

  /** The laws do not depend on the clock, or on health beyond what was selected. */
  lemma LawsAlike(c: Config, s: State, t: State)
    requires ValidConfig(c) && Laws(c, s)
    requires t == s.(now := t.now, pool := t.pool, poolOps := t.poolOps, origins := t.origins)
    requires PicksOf(c, t) == PicksOf(c, s) && Fair.Selects(t.poolOps) == Fair.Selects(s.poolOps)
    ensures Laws(c, t)
  {
    forall route ensures RouteLaw(t, route) {
      assert RouteLaw(s, route);
    }
    forall u | 0 <= u < |t.tally.selections| && UpstreamLaw(c, s, u) ensures UpstreamLaw(c, t, u) {
    }
  }

  lemma HealthKeepsLaws(c: Config, s: State, index: nat, healthy: bool)
    requires HistoryInv(c, s) && Laws(c, s)
    ensures Laws(c, Apply(c, s, SetHealth(index, healthy)))
  {
    var op := Fair.HealthOp(index, healthy);
    PicksMove(c, s, op);
    assert (s.poolOps + [op])[..|s.poolOps|] == s.poolOps;
    LawsAlike(c, s, Apply(c, s, SetHealth(index, healthy)));
  }

  predicate ByOneSession(a: Action) {
    a.ReadFails? || a.Advance? || a.UpstreamEvent? || a.WriteEnds?
  }

  lemma ActionCounts(c: Config, s: State, a: Action)
    requires Sized(c, s) && Enabled(c, s, a) && ByOneSession(a)
    ensures Counts(c, s, Apply(c, s, a), a.session)
  {
    match a
    case ReadFails(i) => IdleCounts(c, s, i, Closed);
    case Advance(i, rendered) => AdvanceCounts(c, s, i, rendered);
    case UpstreamEvent(i, e) => UpstreamCounts(c, s, i, e);
    case WriteEnds(i, again) => IdleCounts(c, s, i, if again then Reading else Closed);
  }

  lemma LawsStep(c: Config, s: State, a: Action)
    requires Inv(c, s) && Laws(c, s) && Enabled(c, s, a) && HistoryInv(c, Apply(c, s, a))
    ensures Laws(c, Apply(c, s, a))
  {
    if ByOneSession(a) {
      assert s.sessions[a.session].pc.Responding? ==> s.sessions[a.session].id < |s.log| by {
        assert HoldsOk(s, a.session);
      }
      ActionCounts(c, s, a);
      CountsKeepLaws(c, s, Apply(c, s, a), a.session);
    } else {
      OutsideKeepsLaws(c, s, a);
    }
  }

  lemma OutsideKeepsLaws(c: Config, s: State, a: Action)
    requires HistoryInv(c, s) && Laws(c, s) && Enabled(c, s, a) && !ByOneSession(a)
    ensures Laws(c, Apply(c, s, a))
  {
    match a
    case AcceptSession => AcceptKeepsLaws(c, s);
    case Tick(to) => LawsAlike(c, s, s.(now := to));
    case SetHealth(index, healthy) => HealthKeepsLaws(c, s, index, healthy);
    case ReadRequest(i, q) => ReadKeepsLaws(c, s, i, q);
  }

  lemma InitLaws(c: Config)
    requires ValidConfig(c)
    ensures Laws(c, Init(c))
  {
    SumZeros(|c.endpoints|);
  }

  lemma {:induction false} SumZeros(n: nat)
    ensures Sum(seq(n, i => 0)) == 0
  {
    if n > 0 {
      SumZeros(n - 1);
      assert seq(n, i => 0)[..n - 1] == seq(n - 1, i => 0);
    }
  }
}
