/** Every step keeps what the sessions know and what the histories say. */
module SessionSteps {
  import opened Http
  import opened Endpoints
  import opened Session
  import opened SessionInvariants
  import FP = FlightProtocol
  import Trace = CacheTraces
  import Pool = UpstreamPools
  import Fair = PoolFairness
  import Px = Proxying

  /** The invariant without its flight table, which is kept separately. */
  ghost predicate Knowledge(c: Config, s: State) {
    HistoryInv(c, s) && SessionsInv(c, s) && LogInv(c, s)
  }

  // ---------- What survives a step ----------

  /** Flights keep their key and owner, and a result once settled; requests keep theirs; operations stay. */
  ghost predicate Grows(s: State, t: State) {
    && |s.records| <= |t.records|
    && (forall f :: 0 <= f < |s.records| ==>
          && t.records[f].key == s.records[f].key && t.records[f].opener == s.records[f].opener
          && (s.records[f].result.Some? ==>
                t.records[f].result == s.records[f].result && t.records[f].attempt == s.records[f].attempt)
          && (s.records[f].stored.Some? ==> t.records[f].stored == s.records[f].stored)
          && (StoredIfDue(s.records[f]) ==> t.records[f] == s.records[f]))
    && |s.log| <= |t.log|
    && (forall r :: 0 <= r < |s.log| ==> t.log[r].request == s.log[r].request && t.log[r].holder == s.log[r].holder)
    && |s.origins.cache| == |s.ops| && |t.origins.cache| == |t.ops|
    && s.ops <= t.ops && s.origins.cache <= t.origins.cache && s.poolOps <= t.poolOps
  }

  /** The flight a session leads is untouched. */
  ghost predicate SparesFlight(s: State, t: State, x: Session) {
    PartOf(x.pc).Leads? && PartOf(x.pc).flight < |s.records| <= |t.records| ==>
      t.records[PartOf(x.pc).flight] == s.records[PartOf(x.pc).flight]
  }

  lemma LookupStays(c: Config, s: State, t: State, k: nat)
    requires ValidConfig(c) && Grows(s, t) && k < |s.ops| && s.ops[k].LookupOp?
    ensures t.ops[k] == s.ops[k] && t.origins.cache[k] == s.origins.cache[k]
    ensures Trace.Answer(c.capacity, c.ttl, t.ops, k) == Trace.Answer(c.capacity, c.ttl, s.ops, k)
    ensures t.ops[..k + 1] == s.ops[..k + 1]
  {
    assert t.ops[..k] == s.ops[..k];
  }

  lemma SelectionStays(c: Config, s: State, t: State, k: nat, choice: Option<nat>)
    requires Selected(c, s, k, choice) && Grows(s, t)
    ensures Selected(c, t, k, choice)
  {
    assert t.poolOps[..k] == s.poolOps[..k];
  }

  lemma SettlementStays(c: Config, s: State, t: State, q: Request, r: Response, attempt: Attempt)
    requires MaySettle(c, s, q, r, attempt) && Grows(s, t)
    ensures MaySettle(c, t, q, r, attempt)
  {
    match attempt
    case Refused(pick) => SelectionStays(c, s, t, pick, None);
    case Made(fetch) => SelectionStays(c, s, t, fetch.pick, Some(fetch.upstream));
  }

  lemma AnswerStays(c: Config, s: State, t: State, q: Request, id: nat, source: Source, r: Response)
    requires AnswerOk(c, s, q, id, source, r) && Grows(s, t)
    ensures AnswerOk(c, t, q, id, source, r)
  {
    match source
    case FromCache(k) => LookupStays(c, s, t, k);
    case FromFetch(fetch) => SelectionStays(c, s, t, fetch.pick, Some(fetch.upstream));
    case NoUpstream(pick) => SelectionStays(c, s, t, pick, None);
    case _ =>
  }

  lemma LookedPcStays(c: Config, s: State, t: State, x: Session)
    requires PcOk(c, s, x) && Grows(s, t) && (x.pc.HitFound? || x.pc.MissFound? || x.pc.Joining?)
    ensures PcOk(c, t, x)
  {
    LookupStays(c, s, t, x.pc.lookup);
  }

  lemma FetchPcStays(c: Config, s: State, t: State, x: Session)
    requires PcOk(c, s, x) && Grows(s, t) && SparesFlight(s, t, x)
    requires x.pc.Launching? || x.pc.Fetching? || x.pc.Fetched?
    ensures PcOk(c, t, x)
  {
    SelectionStays(c, s, t, x.pc.fetch.pick, Some(x.pc.fetch.upstream));
  }

  lemma PcStays(c: Config, s: State, t: State, x: Session)
    requires PcOk(c, s, x) && Grows(s, t) && SparesFlight(s, t, x)
    ensures PcOk(c, t, x)
  {
    if x.pc.HitFound? || x.pc.MissFound? || x.pc.Joining? {
      LookedPcStays(c, s, t, x);
    } else if x.pc.Launching? || x.pc.Fetching? || x.pc.Fetched? {
      FetchPcStays(c, s, t, x);
    } else if x.pc.Responding? {
      AnswerStays(c, s, t, x.request, x.id, x.pc.source, x.pc.response);
    }
  }

  lemma SessionStays(c: Config, s: State, t: State, x: Session)
    requires SessionOk(c, s, x) && Grows(s, t) && SparesFlight(s, t, x)
    ensures SessionOk(c, t, x)
  {
    PcStays(c, s, t, x);
    InboxStays(s, t, x.inbox);
  }

  lemma InboxStays(s: State, t: State, inbox: seq<Delivery>)
    requires Grows(s, t) && forall d :: d in inbox ==> DeliveryOk(s, d)
    ensures forall d :: d in inbox ==> DeliveryOk(t, d)
  {
    forall d | d in inbox ensures DeliveryOk(t, d) {
      assert DeliveryOk(s, d);
    }
  }

  /** One session moves, keeping its request and inbox, and only its place in the program and shared objects change. */
  ghost predicate Moves(s: State, t: State, i: nat) {
    && i < |s.sessions| == |t.sessions|
    && t.sessions == s.sessions[i := s.sessions[i].(pc := t.sessions[i].pc)]
    && Unanswered(s.sessions[i].pc) && Unanswered(t.sessions[i].pc)
    && t.log == s.log
  }

  lemma SessionsKept(c: Config, s: State, t: State, i: nat)
    requires SessionsInv(c, s) && Moves(s, t, i) && Grows(s, t) && PcOk(c, t, t.sessions[i])
    requires forall j :: 0 <= j < |s.sessions| && j != i ==> SparesFlight(s, t, s.sessions[j])
    ensures SessionsInv(c, t)
  {
    forall j | 0 <= j < |t.sessions| ensures SessionOk(c, t, t.sessions[j]) {
      assert SessionOk(c, s, s.sessions[j]);
      if j == i {
        InboxStays(s, t, s.sessions[i].inbox);
      } else {
        SessionStays(c, s, t, s.sessions[j]);
      }
    }
  }

  lemma RequestStays(c: Config, s: State, t: State, r: nat)
    requires r < |s.log| && LogOk(c, s, r) && Grows(s, t) && |s.sessions| <= |t.sessions|
    requires r < |t.log| && t.log[r] == s.log[r]
    requires var x, y := s.sessions[s.log[r].holder], t.sessions[s.log[r].holder];
             Unanswered(x.pc) && x.id == r ==> Unanswered(y.pc) && y.id == r
    ensures LogOk(c, t, r)
  {
    var rec := s.log[r];
    if rec.answers != [] {
      AnswerStays(c, s, t, rec.request, r, rec.answers[0].source, rec.answers[0].response);
    }
  }

  /** No session lets go of its request. */
  ghost predicate HoldsOn(s: State, t: State) {
    && |s.sessions| <= |t.sessions|
    && forall j :: 0 <= j < |s.sessions| && Unanswered(s.sessions[j].pc) ==>
         Unanswered(t.sessions[j].pc) && t.sessions[j].id == s.sessions[j].id
  }

  lemma LogKept(c: Config, s: State, t: State)
    requires LogInv(c, s) && Grows(s, t) && s.log <= t.log && HoldsOn(s, t)
    ensures forall r :: 0 <= r < |s.log| ==> LogOk(c, t, r)
  {
    forall r | 0 <= r < |s.log| ensures LogOk(c, t, r) {
      assert LogOk(c, s, r);
      RequestStays(c, s, t, r);
    }
  }

  lemma RequestsKept(c: Config, s: State, t: State, i: nat)
    requires LogInv(c, s) && Moves(s, t, i) && Grows(s, t)
    ensures forall r :: 0 <= r < |t.log| ==> LogOk(c, t, r)
    ensures forall j :: 0 <= j < |t.sessions| ==> HoldsOk(t, j)
  {
    LogKept(c, s, t);
    forall j | 0 <= j < |t.sessions| ensures HoldsOk(t, j) {
      assert HoldsOk(s, j);
    }
  }

  lemma RecordStays(c: Config, s: State, t: State, f: nat)
    requires f < |s.records| && RecordOk(c, s, f) && Grows(s, t) && t.records[f] == s.records[f]
    ensures RecordOk(c, t, f)
  {
    var rec := s.records[f];
    if rec.result.Some? {
      SettlementStays(c, s, t, s.log[rec.opener].request, rec.result.value, rec.attempt);
    }
  }

  lemma RecordsKept(c: Config, s: State, t: State)
    requires LogInv(c, s) && Grows(s, t) && s.records <= t.records
    ensures forall f :: 0 <= f < |s.records| ==> RecordOk(c, t, f)
  {
    forall f | 0 <= f < |s.records| ensures RecordOk(c, t, f) {
      assert RecordOk(c, s, f);
      RecordStays(c, s, t, f);
    }
  }

  lemma OpsKept(c: Config, s: State, t: State)
    requires LogInv(c, s) && Grows(s, t)
    ensures forall k :: 0 <= k < |s.ops| ==> OpOk(t, k)
  {
    forall k | 0 <= k < |s.ops| ensures OpOk(t, k) {
      assert OpOk(s, k);
      assert t.ops[k] == s.ops[k] && t.origins.cache[k] == s.origins.cache[k];
    }
  }

  /** A step that only moves a session and counts. */
  ghost predicate Plain(s: State, t: State, i: nat) {
    && Moves(s, t, i)
    && t.records == s.records && t.ops == s.ops && t.origins == s.origins && t.cache == s.cache
    && t.pool == s.pool && t.poolOps == s.poolOps && |t.tally.selections| == |s.tally.selections|
  }

  lemma PlainKeeps(c: Config, s: State, t: State, i: nat)
    requires Knowledge(c, s) && Plain(s, t, i) && PcOk(c, t, t.sessions[i])
    ensures Knowledge(c, t)
  {
    SessionsKept(c, s, t, i);
    RequestsKept(c, s, t, i);
    RecordsKept(c, s, t);
    OpsKept(c, s, t);
  }

  // ---------- Steps that count ----------

  lemma CountKeeps(c: Config, s: State, i: nat)
    requires Knowledge(c, s) && i < |s.sessions|
    ensures s.sessions[i].pc.Counting? ==> Knowledge(c, CountRequestStep(s, i))
    ensures s.sessions[i].pc.MissFound? ==> Knowledge(c, CountMissStep(s, i))
  {
    assert SessionOk(c, s, s.sessions[i]);
    match s.sessions[i].pc
    case Counting => PlainKeeps(c, s, CountRequestStep(s, i), i);
    case MissFound(_) => PlainKeeps(c, s, CountMissStep(s, i), i);
    case _ =>
  }

  lemma CountRoleKeeps(c: Config, s: State, i: nat)
    requires Knowledge(c, s) && i < |s.sessions|
    ensures s.sessions[i].pc.FollowerJoined? ==> Knowledge(c, CountFollowerStep(s, i))
    ensures s.sessions[i].pc.LeaderJoined? ==> Knowledge(c, CountLeaderStep(s, i))
  {
    assert SessionOk(c, s, s.sessions[i]);
    match s.sessions[i].pc
    case FollowerJoined(_) => PlainKeeps(c, s, CountFollowerStep(s, i), i);
    case LeaderJoined(_) => PlainKeeps(c, s, CountLeaderStep(s, i), i);
    case _ =>
  }

  lemma CountHitKeeps(c: Config, s: State, i: nat)
    requires Knowledge(c, s) && i < |s.sessions| && s.sessions[i].pc.HitFound?
    ensures Knowledge(c, CountHitStep(s, i))
  {
    assert SessionOk(c, s, s.sessions[i]);
    PlainKeeps(c, s, CountHitStep(s, i), i);
  }

  lemma LaunchKeeps(c: Config, s: State, i: nat)
    requires Knowledge(c, s) && i < |s.sessions| && s.sessions[i].pc.Launching?
    ensures s.sessions[i].pc.fetch.upstream < |c.endpoints| && Knowledge(c, LaunchStep(c, s, i))
  {
    assert SessionOk(c, s, s.sessions[i]);
    LaunchIsPlain(c, s, i);
    LaunchPc(c, s, i);
    PlainKeeps(c, s, LaunchStep(c, s, i), i);
  }

  lemma LaunchIsPlain(c: Config, s: State, i: nat)
    requires Sized(c, s) && i < |s.sessions| && s.sessions[i].pc.Launching? && PcOk(c, s, s.sessions[i])
    ensures Plain(s, LaunchStep(c, s, i), i)
  {
  }

  lemma LaunchPc(c: Config, s: State, i: nat)
    requires Sized(c, s) && i < |s.sessions| && s.sessions[i].pc.Launching? && PcOk(c, s, s.sessions[i])
    ensures PcOk(c, LaunchStep(c, s, i), LaunchStep(c, s, i).sessions[i])
  {
    var x := s.sessions[i];
    if x.pc.stage == RaiseGauge {
      var p := Px.Start(x.request, c.endpoints[x.pc.fetch.upstream]);
      assert p == Px.Drive(p, []);
    }
  }

  lemma CompleteKeeps(c: Config, s: State, i: nat)
    requires Knowledge(c, s) && i < |s.sessions| && s.sessions[i].pc.Completing?
    ensures Knowledge(c, CompleteStep(s, i))
  {
    assert SessionOk(c, s, s.sessions[i]);
    PlainKeeps(c, s, CompleteStep(s, i), i);
  }

  /** One more event drives the proxy one step further, to its outcome if that ends it. */
  lemma DriveOnce(q: Request, upstream: Endpoint, events: seq<Px.Event>, e: Px.Event)
    requires Px.Drive(Px.Start(q, upstream), events).Pending?
    ensures var p, more := Px.Drive(Px.Start(q, upstream), events), events + [e];
            && Px.Drive(Px.Start(q, upstream), more) == Px.OnEvent(p, e)
            && (Px.OnEvent(p, e).Done? ==> Px.Outcome(q, upstream, more) == Some(Px.OnEvent(p, e).response))
  {
    var more := events + [e];
    assert more[..|more| - 1] == events;
    Px.DriveMeetsOutcome(q, upstream, more);
  }

  lemma UpstreamKeeps(c: Config, s: State, i: nat, e: Px.Event)
    requires Knowledge(c, s) && i < |s.sessions| && s.sessions[i].pc.Fetching? && s.sessions[i].pc.proxy.Pending?
    ensures Knowledge(c, UpstreamStep(s, i, e))
  {
    assert SessionOk(c, s, s.sessions[i]);
    UpstreamIsPlain(c, s, i, e);
    PlainKeeps(c, s, UpstreamStep(s, i, e), i);
  }

  lemma UpstreamIsPlain(c: Config, s: State, i: nat, e: Px.Event)
    requires i < |s.sessions| && s.sessions[i].pc.Fetching? && PcOk(c, s, s.sessions[i])
    ensures Plain(s, UpstreamStep(s, i, e), i)
    ensures PcOk(c, UpstreamStep(s, i, e), UpstreamStep(s, i, e).sessions[i])
  {
    var fetch := s.sessions[i].pc.fetch;
    DriveOnce(s.sessions[i].request, c.endpoints[fetch.upstream], fetch.events, e);
  }

  // ---------- The lookup ----------

  lemma LookupGrows(c: Config, s: State, i: nat, rendered: string)
    requires HistoryInv(c, s) && i < |s.sessions| && s.sessions[i].pc.Dispatching? && CacheRoute(s.sessions[i].request)
    ensures var t := DispatchStep(s, i, rendered);
            && Moves(s, t, i) && Grows(s, t) && HistoryInv(c, t)
            && t.ops == s.ops + [Trace.LookupOp(s.sessions[i].request.target, s.now)]
            && t.origins.cache == s.origins.cache + [s.sessions[i].id]
  {
    var t := DispatchStep(s, i, rendered);
    assert t.ops[..|s.ops|] == s.ops;
  }

  lemma LookupPc(c: Config, s: State, i: nat, rendered: string)
    requires HistoryInv(c, s) && i < |s.sessions| && s.sessions[i].pc.Dispatching? && CacheRoute(s.sessions[i].request)
    ensures PcOk(c, DispatchStep(s, i, rendered), DispatchStep(s, i, rendered).sessions[i])
  {
    var t := DispatchStep(s, i, rendered);
    var n := |s.ops|;
    assert t.ops[..n] == s.ops && t.ops[..n + 1] == t.ops;
    assert t.ops[n] == Trace.LookupOp(s.sessions[i].request.target, s.now);
    if t.sessions[i].pc.MissFound? {
      Trace.AbsentAfterMiss(c.capacity, c.ttl, t.ops, n);
    }
  }

  lemma LookupKeeps(c: Config, s: State, i: nat, rendered: string)
    requires Knowledge(c, s) && i < |s.sessions| && s.sessions[i].pc.Dispatching? && CacheRoute(s.sessions[i].request)
    ensures Knowledge(c, DispatchStep(s, i, rendered))
  {
    var t := DispatchStep(s, i, rendered);
    LookupGrows(c, s, i, rendered);
    LookupPc(c, s, i, rendered);
    SessionsKept(c, s, t, i);
    RequestsKept(c, s, t, i);
    assert HoldsOk(s, i);
    LookupHistory(c, s, t, i);
  }

  lemma LookupHistory(c: Config, s: State, t: State, i: nat)
    requires LogInv(c, s) && Grows(s, t) && t.records == s.records && t.log == s.log && i < |s.sessions|
    requires t.ops == s.ops + [Trace.LookupOp(s.sessions[i].request.target, s.now)]
    requires t.origins.cache == s.origins.cache + [s.sessions[i].id]
    requires HoldsOk(s, i) && Unanswered(s.sessions[i].pc) && CacheRoute(s.sessions[i].request)
    ensures forall f :: 0 <= f < |t.records| ==> RecordOk(c, t, f)
    ensures forall k :: 0 <= k < |t.ops| ==> OpOk(t, k)
  {
    RecordsKept(c, s, t);
    OpsKept(c, s, t);
  }

  lemma DispatchKeeps(c: Config, s: State, i: nat, rendered: string)
    requires Knowledge(c, s) && i < |s.sessions| && s.sessions[i].pc.Dispatching?
    ensures Knowledge(c, DispatchStep(s, i, rendered))
  {
    if CacheRoute(s.sessions[i].request) {
      LookupKeeps(c, s, i, rendered);
    } else {
      OtherDispatchIsPlain(c, s, i, rendered);
      PlainKeeps(c, s, DispatchStep(s, i, rendered), i);
    }
  }

  lemma OtherDispatchIsPlain(c: Config, s: State, i: nat, rendered: string)
    requires i < |s.sessions| && s.sessions[i].pc.Dispatching? && !CacheRoute(s.sessions[i].request)
    ensures Plain(s, DispatchStep(s, i, rendered), i)
    ensures PcOk(c, DispatchStep(s, i, rendered), DispatchStep(s, i, rendered).sessions[i])
  {
  }

  // ---------- Starting and settling a flight ----------

  lemma JoinPc(c: Config, s: State, i: nat)
    requires Knowledge(c, s) && FP.Inv(TableOf(s)) && i < |s.sessions| && s.sessions[i].pc.Joining?
    ensures PcOk(c, JoinStep(s, i), JoinStep(s, i).sessions[i])
  {
    assert SessionOk(c, s, s.sessions[i]);
    var key := s.sessions[i].request.target;
    if key in s.flights {
      assert FP.KeyOk(TableOf(s), key);
    }
  }

  lemma JoinRecords(c: Config, s: State, i: nat)
    requires LogInv(c, s) && i < |s.sessions| && s.sessions[i].pc.Joining? && CacheRoute(s.sessions[i].request)
    ensures var t := JoinStep(s, i); Grows(s, t) && forall f :: 0 <= f < |t.records| ==> RecordOk(c, t, f)
  {
    var t := JoinStep(s, i);
    assert HoldsOk(s, i);
    RecordsKept(c, s, t);
  }

  lemma JoinMovesOne(c: Config, s: State, i: nat)
    requires HistoryInv(c, s) && i < |s.sessions| && s.sessions[i].pc.Joining?
    ensures Moves(s, JoinStep(s, i), i) && HistoryInv(c, JoinStep(s, i))
    ensures forall j :: 0 <= j < |s.sessions| ==> SparesFlight(s, JoinStep(s, i), s.sessions[j])
  {
  }

  lemma JoinKeeps(c: Config, s: State, i: nat)
    requires Knowledge(c, s) && FP.Inv(TableOf(s)) && i < |s.sessions| && s.sessions[i].pc.Joining?
    ensures Knowledge(c, JoinStep(s, i))
  {
    var t := JoinStep(s, i);
    assert CacheRoute(s.sessions[i].request) by { assert SessionOk(c, s, s.sessions[i]); }
    JoinMovesOne(c, s, i);
    JoinPc(c, s, i);
    JoinRecords(c, s, i);
    SessionsKept(c, s, t, i);
    RequestsKept(c, s, t, i);
    OpsKept(c, s, t);
  }

  /** A flight's record changes only at the hands of its leader. */
  lemma OthersSpared(s: State, t: State, i: nat, f: nat)
    requires FP.Inv(TableOf(s)) && i < |s.sessions| && PartOf(s.sessions[i].pc) == FP.Leads(f)
    requires |t.records| == |s.records| && forall g :: 0 <= g < |s.records| && g != f ==> t.records[g] == s.records[g]
    ensures forall j :: 0 <= j < |s.sessions| && j != i ==> SparesFlight(s, t, s.sessions[j])
  {
    var table := TableOf(s);
    assert FP.PartOk(table, i);
    forall j | 0 <= j < |s.sessions| && j != i ensures SparesFlight(s, t, s.sessions[j]) {
      assert FP.PartOk(table, j);
    }
  }

  lemma SettleRecords(c: Config, s: State, i: nat, f: nat, r: Response, attempt: Attempt)
    requires LogInv(c, s) && i < |s.sessions| && Unanswered(s.sessions[i].pc)
    requires LeadData(s, s.sessions[i], Some(f)) && MaySettle(c, s, s.sessions[i].request, r, attempt)
    ensures var t := Settle(s, i, f, r, attempt);
            && Grows(s, t) && forall g :: 0 <= g < |t.records| ==> RecordOk(c, t, g)
    ensures PcOk(c, Settle(s, i, f, r, attempt), Settle(s, i, f, r, attempt).sessions[i])
  {
    var t := Settle(s, i, f, r, attempt);
    assert HoldsOk(s, i);
    assert RecordOk(c, s, f);
    forall g | 0 <= g < |t.records| ensures RecordOk(c, t, g) {
      assert RecordOk(c, s, g);
      if g == f {
        SettlementStays(c, s, t, s.sessions[i].request, r, attempt);
      } else {
        RecordStays(c, s, t, g);
      }
    }
  }

  lemma SettleKeeps(c: Config, s: State, i: nat, f: nat, r: Response, attempt: Attempt)
    requires Knowledge(c, s) && FP.Inv(TableOf(s)) && i < |s.sessions|
    requires Unanswered(s.sessions[i].pc) && PartOf(s.sessions[i].pc) == FP.Leads(f)
    requires LeadData(s, s.sessions[i], Some(f)) && MaySettle(c, s, s.sessions[i].request, r, attempt)
    ensures Knowledge(c, Settle(s, i, f, r, attempt))
  {
    var t := Settle(s, i, f, r, attempt);
    OthersSpared(s, t, i, f);
    SettleRecords(c, s, i, f, r, attempt);
    SessionsKept(c, s, t, i);
    RequestsKept(c, s, t, i);
    OpsKept(c, s, t);
  }

  /** The selection itself, before the session acts on it. */
  lemma PoolKeeps(c: Config, s: State, t: State)
    requires Knowledge(c, s)
    requires t == s.(pool := t.pool, poolOps := t.poolOps, origins := s.origins.(pool := t.origins.pool))
    requires |t.origins.pool| == |t.poolOps|
    requires t.poolOps != [] && t.poolOps[..|t.poolOps| - 1] == s.poolOps
    requires t.pool == Fair.StepPool(s.pool, t.poolOps[|t.poolOps| - 1])
    ensures Knowledge(c, t)
  {
    forall i | 0 <= i < |t.sessions| ensures SessionOk(c, t, t.sessions[i]) && HoldsOk(t, i) {
      assert SessionOk(c, s, s.sessions[i]) && HoldsOk(s, i);
      SessionStays(c, s, t, s.sessions[i]);
    }
    RecordsKept(c, s, t);
    OpsKept(c, s, t);
    LogKept(c, s, t);
  }

  function Selection(s: State, i: nat): State
    requires Pool.ValidPool(s.pool) && i < |s.sessions|
  {
    s.(pool := Pool.SelectState(s.pool), poolOps := s.poolOps + [Fair.SelectOp],
       origins := s.origins.(pool := s.origins.pool + [s.sessions[i].id]))
  }

  lemma SelectKeeps(c: Config, s: State, i: nat)
    requires Knowledge(c, s) && FP.Inv(TableOf(s)) && i < |s.sessions| && s.sessions[i].pc.Selecting?
    ensures Knowledge(c, SelectStep(c, s, i))
  {
    var u := Selection(s, i);
    assert u.poolOps[..|u.poolOps| - 1] == s.poolOps;
    PoolKeeps(c, s, u);
    assert SessionOk(c, u, u.sessions[i]);
    assert Selected(c, u, |s.poolOps|, Pool.Choice(s.pool));
    var lead := s.sessions[i].pc.lead;
    if Pool.Choice(s.pool).None? && lead.Some? {
      SettleKeeps(c, u, i, lead.value, ServiceUnavailable(s.sessions[i].request), Refused(|s.poolOps|));
    } else {
      SelectIsPlain(c, s, u, i);
      PlainKeeps(c, u, SelectStep(c, s, i), i);
    }
  }

  lemma SelectIsPlain(c: Config, s: State, u: State, i: nat)
    requires Sized(c, s) && i < |s.sessions| && s.sessions[i].pc.Selecting? && PcOk(c, u, s.sessions[i])
    requires u == Selection(s, i)
    requires Selected(c, u, |s.poolOps|, Pool.Choice(s.pool))
    requires Pool.Choice(s.pool).Some? || s.sessions[i].pc.lead.None?
    ensures Plain(u, SelectStep(c, s, i), i)
    ensures PcOk(c, SelectStep(c, s, i), SelectStep(c, s, i).sessions[i])
  {
  }

  lemma FetchedKeeps(c: Config, s: State, i: nat)
    requires Knowledge(c, s) && FP.Inv(TableOf(s)) && i < |s.sessions| && s.sessions[i].pc.Fetched?
    ensures Knowledge(c, FetchedStep(s, i))
  {
    assert SessionOk(c, s, s.sessions[i]);
    var Fetched(lead, fetch, r) := s.sessions[i].pc;
    if lead.Some? {
      var u := Settle(s, i, lead.value, r, Made(fetch));
      SettleKeeps(c, s, i, lead.value, r, Made(fetch));
      TallyKeeps(c, u, FetchedStep(s, i));
    } else {
      FetchedIsPlain(c, s, i);
      PlainKeeps(c, s, FetchedStep(s, i), i);
    }
  }

  lemma FetchedIsPlain(c: Config, s: State, i: nat)
    requires i < |s.sessions| && s.sessions[i].pc.Fetched? && s.sessions[i].pc.lead.None? && PcOk(c, s, s.sessions[i])
    ensures Plain(s, FetchedStep(s, i), i)
    ensures PcOk(c, FetchedStep(s, i), FetchedStep(s, i).sessions[i])
  {
  }

  /** Counters other than the number of upstreams do not matter here. */
  lemma TallyKeeps(c: Config, s: State, t: State)
    requires Knowledge(c, s) && t == s.(tally := t.tally) && |t.tally.selections| == |s.tally.selections|
    ensures Knowledge(c, t)
  {
    forall i | 0 <= i < |t.sessions| ensures SessionOk(c, t, t.sessions[i]) && HoldsOk(t, i) {
      assert SessionOk(c, s, s.sessions[i]) && HoldsOk(s, i);
      SessionStays(c, s, t, s.sessions[i]);
    }
    RecordsKept(c, s, t);
    OpsKept(c, s, t);
    LogKept(c, s, t);
  }

  // ---------- Storing ----------

  lemma StoreGrows(c: Config, s: State, i: nat)
    requires ValidConfig(c) && |s.origins.cache| == |s.ops| && i < |s.sessions| && s.sessions[i].pc.Storing?
    requires s.sessions[i].pc.shouldCache && CacheableResponse(s.sessions[i].pc.response) && PcOk(c, s, s.sessions[i])
    ensures var t := StoreStep(c, s, i);
            && Moves(s, t, i) && Grows(s, t) && PcOk(c, t, t.sessions[i])
            && |t.records| == |s.records|
            && forall g :: 0 <= g < |s.records| && g != s.sessions[i].pc.flight ==> t.records[g] == s.records[g]
  {
  }

  lemma StoreTrace(c: Config, s: State, i: nat)
    requires HistoryInv(c, s) && i < |s.sessions| && s.sessions[i].pc.Storing?
    requires s.sessions[i].pc.shouldCache && CacheableResponse(s.sessions[i].pc.response)
    ensures HistoryInv(c, StoreStep(c, s, i))
  {
    assert StoreStep(c, s, i).ops[..|s.ops|] == s.ops;
  }

  lemma StoreRecords(c: Config, s: State, i: nat)
    requires Knowledge(c, s) && i < |s.sessions| && s.sessions[i].pc.Storing?
    requires s.sessions[i].pc.shouldCache && CacheableResponse(s.sessions[i].pc.response)
    requires Grows(s, StoreStep(c, s, i))
    ensures forall f :: 0 <= f < |s.records| ==> RecordOk(c, StoreStep(c, s, i), f)
  {
    var t := StoreStep(c, s, i);
    assert SessionOk(c, s, s.sessions[i]);
    forall g | 0 <= g < |s.records| ensures RecordOk(c, t, g) {
      assert RecordOk(c, s, g);
      if g == s.sessions[i].pc.flight {
        var rec := s.records[g];
        SettlementStays(c, s, t, s.log[rec.opener].request, rec.result.value, rec.attempt);
      } else {
        RecordStays(c, s, t, g);
      }
    }
  }

  lemma StoreOps(c: Config, s: State, i: nat)
    requires ValidConfig(c) && LogInv(c, s) && i < |s.sessions| && s.sessions[i].pc.Storing?
    requires s.sessions[i].pc.shouldCache && CacheableResponse(s.sessions[i].pc.response)
    requires PcOk(c, s, s.sessions[i]) && Grows(s, StoreStep(c, s, i))
    ensures var t := StoreStep(c, s, i); forall k :: 0 <= k < |t.ops| ==> OpOk(t, k)
  {
    OpsKept(c, s, StoreStep(c, s, i));
  }

  lemma StoringKeeps(c: Config, s: State, i: nat)
    requires Knowledge(c, s) && FP.Inv(TableOf(s)) && i < |s.sessions| && s.sessions[i].pc.Storing?
    requires s.sessions[i].pc.shouldCache && CacheableResponse(s.sessions[i].pc.response)
    ensures Knowledge(c, StoreStep(c, s, i))
  {
    var t := StoreStep(c, s, i);
    assert SessionOk(c, s, s.sessions[i]);
    StoreGrows(c, s, i);
    StoreTrace(c, s, i);
    StoreRecords(c, s, i);
    StoreOps(c, s, i);
    OthersSpared(s, t, i, s.sessions[i].pc.flight);
    SessionsKept(c, s, t, i);
    RequestsKept(c, s, t, i);
  }

  lemma StoreKeeps(c: Config, s: State, i: nat)
    requires Knowledge(c, s) && FP.Inv(TableOf(s)) && i < |s.sessions| && s.sessions[i].pc.Storing?
    ensures Knowledge(c, StoreStep(c, s, i))
  {
    var x := s.sessions[i];
    if x.pc.shouldCache && CacheableResponse(x.pc.response) {
      StoringKeeps(c, s, i);
    } else {
      assert SessionOk(c, s, x);
      PlainKeeps(c, s, StoreStep(c, s, i), i);
    }
  }

  // ---------- Delivering ----------

  /** Only inboxes differ. */
  lemma InboxesKeep(c: Config, s: State, t: State)
    requires Knowledge(c, s) && t == s.(sessions := t.sessions) && |t.sessions| == |s.sessions|
    requires forall j :: 0 <= j < |s.sessions| ==> t.sessions[j] == s.sessions[j].(inbox := t.sessions[j].inbox)
    requires forall j :: 0 <= j < |s.sessions| ==> forall d :: d in t.sessions[j].inbox ==> DeliveryOk(s, d)
    ensures Knowledge(c, t)
  {
    forall j | 0 <= j < |t.sessions| ensures SessionOk(c, t, t.sessions[j]) && HoldsOk(t, j) {
      assert SessionOk(c, s, s.sessions[j]) && HoldsOk(s, j);
      SessionStays(c, s, t, s.sessions[j]);
      InboxStays(s, t, t.sessions[j].inbox);
    }
    RecordsKept(c, s, t);
    OpsKept(c, s, t);
    LogKept(c, s, t);
  }

  lemma PostKeeps(c: Config, s: State, i: nat)
    requires Knowledge(c, s) && i < |s.sessions| && s.sessions[i].pc.Posting?
    ensures Knowledge(c, PostStep(s, i))
  {
    assert SessionOk(c, s, s.sessions[i]);
    var Posting(f, r, ws) := s.sessions[i].pc;
    if ws == [] {
      PlainKeeps(c, s, PostStep(s, i), i);
    } else {
      var u := At(s, i, Posting(f, r, ws[1..]));
      PlainKeeps(c, s, u, i);
      PostInboxes(c, u, PostStep(s, i), ws[0], Delivery(f, r));
    }
  }

  lemma PostInboxes(c: Config, s: State, t: State, w: nat, d: Delivery)
    requires Knowledge(c, s) && DeliveryOk(s, d)
    requires t == if w < |s.sessions|
                  then s.(sessions := s.sessions[w := s.sessions[w].(inbox := s.sessions[w].inbox + [d])]) else s
    ensures Knowledge(c, t)
  {
    forall j | 0 <= j < |s.sessions| ensures forall e :: e in t.sessions[j].inbox ==> DeliveryOk(s, e) {
      assert SessionOk(c, s, s.sessions[j]);
    }
    InboxesKeep(c, s, t);
  }

  lemma DeliverKeeps(c: Config, s: State, i: nat)
    requires Knowledge(c, s) && FP.Inv(TableOf(s)) && i < |s.sessions|
    requires s.sessions[i].pc.Awaiting? && s.sessions[i].inbox != []
    ensures Knowledge(c, DeliverStep(s, i))
  {
    var x := s.sessions[i];
    assert SessionOk(c, s, x);
    assert FP.PartOk(TableOf(s), i);
    assert BoxOf(x.inbox)[0] == x.inbox[0].flight;
    assert DeliveryOk(s, x.inbox[0]);
    var u := At(s, i, Responding(Fit(x.inbox[0].response, x.request), FromFlight(x.inbox[0].flight)));
    PlainKeeps(c, s, u, i);
    var t := DeliverStep(s, i);
    forall j | 0 <= j < |u.sessions| ensures forall d :: d in t.sessions[j].inbox ==> DeliveryOk(u, d) {
      assert SessionOk(c, u, u.sessions[j]);
      assert forall d :: d in x.inbox[1..] ==> d in x.inbox;
    }
    InboxesKeep(c, u, t);
  }

  // ---------- Requests come and go ----------

  lemma RespondGrows(c: Config, s: State, i: nat)
    requires LogInv(c, s) && i < |s.sessions| && s.sessions[i].pc.Responding?
    ensures var t := RespondStep(s, i);
            Grows(s, t) && forall j :: 0 <= j < |t.sessions| ==> HoldsOk(t, j)
  {
    var t := RespondStep(s, i);
    assert HoldsOk(s, i);
    forall j | 0 <= j < |t.sessions| ensures HoldsOk(t, j) {
      assert HoldsOk(s, j);
    }
  }

  lemma RespondLog(c: Config, s: State, i: nat)
    requires Knowledge(c, s) && i < |s.sessions| && s.sessions[i].pc.Responding? && Grows(s, RespondStep(s, i))
    ensures forall r :: 0 <= r < |s.log| ==> LogOk(c, RespondStep(s, i), r)
  {
    var t, x := RespondStep(s, i), s.sessions[i];
    assert HoldsOk(s, i) && SessionOk(c, s, x);
    forall r | 0 <= r < |s.log| ensures LogOk(c, t, r) {
      assert LogOk(c, s, r);
      if r == x.id {
        AnswerStays(c, s, t, x.request, r, x.pc.source, x.pc.response);
      } else {
        RequestStays(c, s, t, r);
      }
    }
  }

  lemma RespondKeeps(c: Config, s: State, i: nat)
    requires Knowledge(c, s) && i < |s.sessions| && s.sessions[i].pc.Responding?
    ensures Knowledge(c, RespondStep(s, i))
  {
    var t := RespondStep(s, i);
    RespondGrows(c, s, i);
    RespondLog(c, s, i);
    forall j | 0 <= j < |t.sessions| ensures SessionOk(c, t, t.sessions[j]) {
      assert SessionOk(c, s, s.sessions[j]);
      SessionStays(c, s, t, s.sessions[j]);
    }
    RecordsKept(c, s, t);
    OpsKept(c, s, t);
  }

  lemma ReadKeeps(c: Config, s: State, i: nat, q: Request)
    requires Knowledge(c, s) && Enabled(c, s, ReadRequest(i, q))
    ensures Knowledge(c, Apply(c, s, ReadRequest(i, q)))
  {
    var t := Apply(c, s, ReadRequest(i, q));
    forall j | 0 <= j < |t.sessions| ensures SessionOk(c, t, t.sessions[j]) && HoldsOk(t, j) {
      assert SessionOk(c, s, s.sessions[j]) && HoldsOk(s, j);
      SessionStays(c, s, t, s.sessions[j]);
    }
    RecordsKept(c, s, t);
    OpsKept(c, s, t);
    LogKept(c, s, t);
  }

  /** A session without a request moves, or a new one appears, or the clock does. */
  lemma IdleKeeps(c: Config, s: State, t: State)
    requires Knowledge(c, s) && t == s.(sessions := t.sessions, now := t.now) && |s.sessions| <= |t.sessions|
    requires forall j :: 0 <= j < |s.sessions| ==>
               t.sessions[j] == s.sessions[j]
               || (!Unanswered(s.sessions[j].pc) && !Unanswered(t.sessions[j].pc)
                   && t.sessions[j] == s.sessions[j].(pc := t.sessions[j].pc))
    requires forall j :: |s.sessions| <= j < |t.sessions| ==> t.sessions[j].pc.Reading? && t.sessions[j].inbox == []
    ensures Knowledge(c, t)
  {
    forall j | 0 <= j < |t.sessions| ensures SessionOk(c, t, t.sessions[j]) && HoldsOk(t, j) {
      if j < |s.sessions| {
        assert SessionOk(c, s, s.sessions[j]) && HoldsOk(s, j);
        SessionStays(c, s, t, s.sessions[j]);
      }
    }
    RecordsKept(c, s, t);
    OpsKept(c, s, t);
    LogKept(c, s, t);
  }

  // ---------- Every step ----------

  lemma AdvanceKeeps(c: Config, s: State, i: nat, rendered: string)
    requires Knowledge(c, s) && FP.Inv(TableOf(s)) && i < |s.sessions| && CanAdvance(c, s.sessions[i])
    ensures Knowledge(c, AdvanceStep(c, s, i, rendered))
  {
    CountKeeps(c, s, i);
    CountRoleKeeps(c, s, i);
    match s.sessions[i].pc
    case HitFound(_, _) => CountHitKeeps(c, s, i);
    case Dispatching => DispatchKeeps(c, s, i, rendered);
    case Joining(_) => JoinKeeps(c, s, i);
    case Awaiting(_) => DeliverKeeps(c, s, i);
    case Selecting(_) => SelectKeeps(c, s, i);
    case Launching(_, _, _) => LaunchKeeps(c, s, i);
    case Fetched(_, _, _) => FetchedKeeps(c, s, i);
    case Storing(_, _, _) => StoreKeeps(c, s, i);
    case Completing(_, _) => CompleteKeeps(c, s, i);
    case Posting(_, _, _) => PostKeeps(c, s, i);
    case Responding(_, _) => RespondKeeps(c, s, i);
    case _ =>
  }

  lemma StepKeeps(c: Config, s: State, a: Action)
    requires Knowledge(c, s) && FP.Inv(TableOf(s)) && Enabled(c, s, a)
    ensures Knowledge(c, Apply(c, s, a))
  {
    var t := Apply(c, s, a);
    match a
    case AcceptSession => IdleKeeps(c, s, t);
    case Tick(_) => IdleKeeps(c, s, t);
    case SetHealth(_, _) =>
      assert t.poolOps[..|t.poolOps| - 1] == s.poolOps;
      PoolKeeps(c, s, t);
    case ReadRequest(i, q) => ReadKeeps(c, s, i, q);
    case ReadFails(i) => IdleKeeps(c, s, t);
    case Advance(i, rendered) => AdvanceKeeps(c, s, i, rendered);
    case UpstreamEvent(i, e) => UpstreamKeeps(c, s, i, e);
    case WriteEnds(i, _) => IdleKeeps(c, s, t);
  }
}
