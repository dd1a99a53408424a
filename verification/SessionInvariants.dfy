/** What holds in every reachable state of the session protocol. */
module SessionInvariants {
  import opened Http
  import opened Session
  import FP = FlightProtocol
  import Lru = RecencyList
  import Trace = CacheTraces
  import Pool = UpstreamPools
  import Fair = PoolFairness
  import Px = Proxying

  // ---------- The flight protocol inside ----------

  function LeadPart(lead: Option<nat>): FP.Part {
    match lead case None => FP.Free case Some(f) => FP.Leads(f)
  }

  function PartOf(pc: PC): FP.Part {
    match pc
    case FollowerJoined(f) => FP.Awaits(f)
    case Awaiting(f) => FP.Awaits(f)
    case LeaderJoined(f) => FP.Leads(f)
    case Selecting(lead) => LeadPart(lead)
    case Launching(lead, _, _) => LeadPart(lead)
    case Fetching(lead, _, _) => LeadPart(lead)
    case Fetched(lead, _, _) => LeadPart(lead)
    case Storing(f, _, _) => FP.Leads(f)
    case Completing(f, _) => FP.Leads(f)
    case Posting(f, _, ws) => FP.Posts(f, ws)
    case _ => FP.Free
  }

  function BoxOf(inbox: seq<Delivery>): seq<nat> {
    seq(|inbox|, j requires 0 <= j < |inbox| => inbox[j].flight)
  }

  function Parts(sessions: seq<Session>): seq<FP.Part> {
    seq(|sessions|, i requires 0 <= i < |sessions| => PartOf(sessions[i].pc))
  }

  function Boxes(sessions: seq<Session>): seq<seq<nat>> {
    seq(|sessions|, i requires 0 <= i < |sessions| => BoxOf(sessions[i].inbox))
  }

  function Owners(records: seq<FlightRecord>): seq<FP.Owner> {
    seq(|records|, f requires 0 <= f < |records| => FP.Owner(records[f].key, records[f].leader))
  }

  /** The state as the flight protocol sees it. */
  function TableOf(s: State): FP.Table {
    FP.Table(Parts(s.sessions), Boxes(s.sessions), s.flights, s.current, Owners(s.records))
  }

  // ---------- What each session knows ----------

  /** A session that leads an unsettled flight opened it; one that leads none bypasses. */
  ghost predicate LeadData(s: State, x: Session, lead: Option<nat>) {
    match lead
    case None => BypassRoute(x.request)
    case Some(f) =>
      && CacheRoute(x.request) && f < |s.records|
      && s.records[f].key == x.request.target && s.records[f].opener == x.id && s.records[f].result.None?
  }

  /** A session that leads a settled flight still holds the request that opened it. */
  ghost predicate Settled(s: State, x: Session, f: nat, r: Response) {
    && CacheRoute(x.request) && f < |s.records| && s.records[f].key == x.request.target
    && s.records[f].opener == x.id && s.records[f].result == Some(r)
  }

  /** A settled result is in the cache's history exactly if it was fetched and may be stored. */
  predicate StoredIfDue(rec: FlightRecord) {
    rec.result.Some? && (rec.stored.Some? <==> rec.attempt.Made? && CacheableResponse(rec.result.value))
  }

  /** Cache operation `k` was this request's lookup of this key. */
  ghost predicate Looked(s: State, key: string, id: nat, k: nat) {
    k < |s.ops| == |s.origins.cache| && s.ops[k].LookupOp? && s.ops[k].key == key && s.origins.cache[k] == id
  }

  ghost predicate Hit(c: Config, s: State, key: string, id: nat, k: nat, r: Response) {
    ValidConfig(c) && Looked(s, key, id, k) && Trace.Answer(c.capacity, c.ttl, s.ops, k) == Some(r)
  }

  ghost predicate Missed(c: Config, s: State, key: string, id: nat, k: nat) {
    && ValidConfig(c) && Looked(s, key, id, k)
    && !Lru.Has(Trace.Run(c.capacity, c.ttl, [], s.ops[..k + 1]), key)
  }

  /** Pool operation `k` was a selection, with this outcome. */
  ghost predicate Selected(c: Config, s: State, k: nat, choice: Option<nat>) {
    && ValidConfig(c) && k < |s.poolOps| && s.poolOps[k].SelectOp?
    && Pool.Choice(Fair.After(InitPool(c), s.poolOps[..k])) == choice
  }

  /** The fetch is sent to the upstream selected for it. */
  ghost predicate Sent(c: Config, s: State, fetch: Fetch) {
    fetch.upstream < |c.endpoints| && Selected(c, s, fetch.pick, Some(fetch.upstream))
  }

  /** What a fetch for `q` came to. */
  ghost predicate CameTo(c: Config, s: State, q: Request, fetch: Fetch, r: Response) {
    Sent(c, s, fetch) && Px.Outcome(q, c.endpoints[fetch.upstream], fetch.events) == Some(r)
  }

  /** What a flight led for `q` may be settled with: what its fetch came to, or a 503 if nothing could be selected. */
  ghost predicate MaySettle(c: Config, s: State, q: Request, r: Response, attempt: Attempt) {
    match attempt
    case NotYet => false
    case Refused(pick) => r == ServiceUnavailable(q) && Selected(c, s, pick, None)
    case Made(fetch) => CameTo(c, s, q, fetch, r)
  }

  /** A response to request `q`, number `id`, is what its source says, with the request's version and keep-alive. */
  ghost predicate AnswerOk(c: Config, s: State, q: Request, id: nat, source: Source, r: Response) {
    match source
    case Local(rendered) => LocalRoute(q) && r == LocalResponse(q, rendered)
    case FromCache(k) =>
      && CacheRoute(q) && ValidConfig(c) && Looked(s, q.target, id, k)
      && Trace.Answer(c.capacity, c.ttl, s.ops, k).Some?
      && r == Fit(Trace.Answer(c.capacity, c.ttl, s.ops, k).value, q)
    case FromFlight(f) =>
      && CacheRoute(q) && f < |s.records| && s.records[f].key == q.target
      && StoredIfDue(s.records[f]) && r == Fit(s.records[f].result.value, q)
    case FromFetch(fetch) =>
      && BypassRoute(q) && Sent(c, s, fetch)
      && Px.Outcome(q, c.endpoints[fetch.upstream], fetch.events).Some?
      && r == Fit(Px.Outcome(q, c.endpoints[fetch.upstream], fetch.events).value, q)
    case NoUpstream(pick) => BypassRoute(q) && r == ServiceUnavailable(q) && Selected(c, s, pick, None)
  }

  ghost predicate DeliveryOk(s: State, d: Delivery) {
    d.flight < |s.records| && StoredIfDue(s.records[d.flight]) && s.records[d.flight].result == Some(d.response)
  }

  ghost predicate PcOk(c: Config, s: State, x: Session) {
    var q := x.request;
    match x.pc
    case HitFound(k, r) => CacheRoute(q) && Hit(c, s, q.target, x.id, k, r)
    case MissFound(k) => CacheRoute(q) && Missed(c, s, q.target, x.id, k)
    case Joining(k) => CacheRoute(q) && Missed(c, s, q.target, x.id, k)
    case FollowerJoined(f) => CacheRoute(q) && f < |s.records| && s.records[f].key == q.target
    case Awaiting(f) => CacheRoute(q) && f < |s.records| && s.records[f].key == q.target
    case LeaderJoined(f) => LeadData(s, x, Some(f))
    case Selecting(lead) => LeadData(s, x, lead)
    case Launching(lead, fetch, _) => LeadData(s, x, lead) && Sent(c, s, fetch) && fetch.events == []
    case Fetching(lead, fetch, p) =>
      && LeadData(s, x, lead) && p.Pending? && Sent(c, s, fetch)
      && p == Px.Drive(Px.Start(q, c.endpoints[fetch.upstream]), fetch.events)
    case Fetched(lead, fetch, r) => LeadData(s, x, lead) && CameTo(c, s, q, fetch, r)
    case Storing(f, r, shouldCache) =>
      Settled(s, x, f, r) && s.records[f].attempt.Made? == shouldCache && s.records[f].stored.None?
    case Completing(f, r) => Settled(s, x, f, r) && StoredIfDue(s.records[f])
    case Posting(f, r, _) => Settled(s, x, f, r) && StoredIfDue(s.records[f])
    case Responding(r, source) => AnswerOk(c, s, q, x.id, source, r)
    case _ => true
  }

  ghost predicate SessionOk(c: Config, s: State, x: Session) {
    PcOk(c, s, x) && forall d :: d in x.inbox ==> DeliveryOk(s, d)
  }

  ghost predicate SessionsInv(c: Config, s: State) {
    forall i :: 0 <= i < |s.sessions| ==> SessionOk(c, s, s.sessions[i])
  }

  // ---------- What the histories say ----------

  /**
   * A flight is opened by a request that may use the cache, for exactly its target, and its result is what the attempt
   * for that request came to. A stored result has its store in the history.
   */
  ghost predicate RecordOk(c: Config, s: State, f: nat)
    requires f < |s.records|
  {
    var rec := s.records[f];
    && rec.opener < |s.log| && CacheRoute(s.log[rec.opener].request) && s.log[rec.opener].request.target == rec.key
    && (rec.result.Some? ==> MaySettle(c, s, s.log[rec.opener].request, rec.result.value, rec.attempt))
    && (rec.stored.Some? ==>
          && StoredIfDue(rec) && rec.stored.value < |s.ops| == |s.origins.cache|
          && s.ops[rec.stored.value].StoreOp? && s.origins.cache[rec.stored.value] == f)
  }

  /** A lookup is made by a request that may use the cache; a store is the fetched, storable result of a flight for that key. */
  ghost predicate OpOk(s: State, k: nat)
    requires k < |s.ops| == |s.origins.cache|
  {
    match s.ops[k]
    case LookupOp(key, _) =>
      s.origins.cache[k] < |s.log| && CacheRoute(s.log[s.origins.cache[k]].request) && s.log[s.origins.cache[k]].request.target == key
    case StoreOp(key, r, _) =>
      && s.origins.cache[k] < |s.records| && s.records[s.origins.cache[k]].key == key
      && s.records[s.origins.cache[k]].result == Some(r) && s.records[s.origins.cache[k]].attempt.Made?
      && s.records[s.origins.cache[k]].stored == Some(k)
  }

  predicate Unanswered(pc: PC) {
    !pc.Reading? && !pc.Writing? && !pc.Closed?
  }

  /** A request is answered at most once, and until then the session that read it holds it. */
  ghost predicate LogOk(c: Config, s: State, r: nat)
    requires r < |s.log|
  {
    var rec := s.log[r];
    && rec.holder < |s.sessions|
    && |rec.answers| <= 1
    && (rec.answers == [] ==> Unanswered(s.sessions[rec.holder].pc) && s.sessions[rec.holder].id == r)
    && (rec.answers != [] ==> AnswerOk(c, s, rec.request, r, rec.answers[0].source, rec.answers[0].response))
  }

  ghost predicate HoldsOk(s: State, i: nat)
    requires i < |s.sessions|
  {
    var x := s.sessions[i];
    Unanswered(x.pc) ==>
      x.id < |s.log| && s.log[x.id].holder == i && s.log[x.id].answers == [] && s.log[x.id].request == x.request
  }

  ghost predicate HistoryInv(c: Config, s: State) {
    && Sized(c, s)
    && |s.origins.cache| == |s.ops|
    && s.cache == Trace.Run(c.capacity, c.ttl, [], s.ops)
    && s.pool == Fair.After(InitPool(c), s.poolOps) && |s.origins.pool| == |s.poolOps|
  }

  ghost predicate LogInv(c: Config, s: State) {
    && |s.origins.cache| == |s.ops|
    && (forall f :: 0 <= f < |s.records| ==> RecordOk(c, s, f))
    && (forall k :: 0 <= k < |s.ops| ==> OpOk(s, k))
    && (forall r :: 0 <= r < |s.log| ==> LogOk(c, s, r))
    && (forall i :: 0 <= i < |s.sessions| ==> HoldsOk(s, i))
  }

  ghost predicate Inv(c: Config, s: State) {
    && HistoryInv(c, s)
    && FP.Inv(TableOf(s))
    && SessionsInv(c, s)
    && LogInv(c, s)
  }
}
