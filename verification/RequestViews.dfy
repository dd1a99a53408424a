/** Two things a request carries through the protocol: the flight it joined, and the fetch made on its behalf. */
module RequestViews {
  import opened Http
  import opened Session
  import opened SessionInvariants
  import FP = FlightProtocol
  import Pool = UpstreamPools
  import Fair = PoolFairness
  import Px = Proxying

  // ---------- The flight a request is in ----------

  function SourceFlight(source: Source): Option<nat> {
    if source.FromFlight? then Some(source.flight) else None
  }

  function PcFlight(pc: PC): Option<nat> {
    match pc
    case FollowerJoined(f) => Some(f)
    case Awaiting(f) => Some(f)
    case LeaderJoined(f) => Some(f)
    case Selecting(lead) => lead
    case Launching(lead, _, _) => lead
    case Fetching(lead, _, _) => lead
    case Fetched(lead, _, _) => lead
    case Storing(f, _, _) => Some(f)
    case Completing(f, _) => Some(f)
    case Posting(f, _, _) => Some(f)
    case Responding(_, source) => SourceFlight(source)
    case _ => None
  }

  /** The flight request `r` was answered from, or is in the hands of. */
  function FlightOf(s: State, r: nat): Option<nat>
    requires r < |s.log|
  {
    var rec := s.log[r];
    if rec.answers != [] then SourceFlight(rec.answers[0].source)
    else if rec.holder < |s.sessions| then PcFlight(s.sessions[rec.holder].pc)
    else None
  }

  function Joined(s: State, r: nat): Option<nat> {
    if r in s.origins.joins then Some(s.origins.joins[r]) else None
  }

  /** A request is in the flight it joined and in no other, from its join to its answer; whoever opened a flight joined it. */
  ghost predicate MemberInv(s: State) {
    && (forall r :: r in s.origins.joins ==> r < |s.log|)
    && (forall r :: 0 <= r < |s.log| ==> FlightOf(s, r) == Joined(s, r))
    && (forall f :: 0 <= f < |s.records| ==> Joined(s, s.records[f].opener) == Some(f))
  }

  // ---------- The fetch made for a request ----------

  function FlightFetch(s: State, r: nat, f: nat): Option<Fetch> {
    if f < |s.records| && s.records[f].opener == r && s.records[f].attempt.Made? then Some(s.records[f].attempt.fetch)
    else None
  }

  function SourceFetch(s: State, r: nat, source: Source): Option<Fetch> {
    match source
    case FromFetch(fetch) => Some(fetch)
    case FromFlight(f) => FlightFetch(s, r, f)
    case _ => None
  }

  function PcFetch(s: State, r: nat, pc: PC): Option<Fetch> {
    match pc
    case Launching(_, fetch, _) => Some(fetch)
    case Fetching(_, fetch, _) => Some(fetch)
    case Fetched(_, fetch, _) => Some(fetch)
    case Storing(f, _, _) => FlightFetch(s, r, f)
    case Completing(f, _) => FlightFetch(s, r, f)
    case Posting(f, _, _) => FlightFetch(s, r, f)
    case Responding(_, source) => SourceFetch(s, r, source)
    case _ => None
  }

  /** The fetch that request `r` started, if it has. */
  function FetchOf(s: State, r: nat): Option<Fetch>
    requires r < |s.log|
  {
    var rec := s.log[r];
    if rec.answers != [] then SourceFetch(s, r, rec.answers[0].source)
    else if rec.holder < |s.sessions| then PcFetch(s, r, s.sessions[rec.holder].pc)
    else None
  }

  /** The fetch that used selection `k` is that of the request that made the selection. */
  ghost predicate PickTold(c: Config, s: State, k: nat)
    requires k < |s.poolOps| == |s.origins.pool| && ValidConfig(c)
  {
    var choice := Pool.Choice(Fair.After(InitPool(c), s.poolOps[..k]));
    s.poolOps[k].SelectOp? && choice.Some? ==>
      && s.origins.pool[k] < |s.log|
      && FetchOf(s, s.origins.pool[k]).Some?
      && FetchOf(s, s.origins.pool[k]).value.pick == k && FetchOf(s, s.origins.pool[k]).value.upstream == choice.value
  }

  ghost predicate PickInv(c: Config, s: State) {
    && ValidConfig(c) && |s.origins.pool| == |s.poolOps|
    && forall k :: 0 <= k < |s.poolOps| ==> PickTold(c, s, k)
  }

  // ---------- What a step of a session does to them ----------

  predicate KeepsFetch(before: Option<Fetch>, after: Option<Fetch>) {
    before.Some? ==> after.Some? && after.value.pick == before.value.pick && after.value.upstream == before.value.upstream
  }

  /** Session `i` moves on with its request, or answers it. */
  ghost predicate Moved(s: State, t: State, i: nat) {
    && i < |s.sessions| == |t.sessions|
    && (forall j :: 0 <= j < |s.sessions| && j != i ==> t.sessions[j].pc == s.sessions[j].pc)
    && var x, y := s.sessions[i], t.sessions[i];
    && x.id < |s.log| && Unanswered(x.pc)
    && if Unanswered(y.pc) then t.log == s.log
       else
         && x.pc.Responding?
         && t.log == s.log[x.id := s.log[x.id].(answers := s.log[x.id].answers + [Answer(x.pc.source, x.pc.response)])]
  }

  /** Flights keep their opener, and only those that request `id` opened may be settled. */
  ghost predicate Spared(s: State, t: State, id: nat) {
    && |s.records| <= |t.records|
    && forall f :: 0 <= f < |s.records| ==>
         && t.records[f].opener == s.records[f].opener
         && (s.records[f].opener != id ==> t.records[f].attempt == s.records[f].attempt)
  }

  /** The flight and the fetch of session `i`'s request stay what they are. */
  ghost predicate Carries(s: State, t: State, i: nat)
    requires Moved(s, t, i)
  {
    var x := s.sessions[i];
    && Spared(s, t, x.id) && KeepsFetch(PcFetch(s, x.id, x.pc), FetchOf(t, x.id))
    && |t.records| == |s.records| && FlightOf(t, x.id) == PcFlight(x.pc) && t.origins.joins == s.origins.joins
  }

  /** Nothing is selected. */
  ghost predicate SamePicks(s: State, t: State) {
    t.poolOps == s.poolOps && t.origins.pool == s.origins.pool
  }

  lemma OthersView(c: Config, s: State, t: State, i: nat, r: nat)
    requires LogInv(c, s) && Moved(s, t, i) && HoldsOk(s, i) && r < |s.log| && r != s.sessions[i].id
    ensures FlightOf(t, r) == FlightOf(s, r)
    ensures Spared(s, t, s.sessions[i].id) ==> KeepsFetch(FetchOf(s, r), FetchOf(t, r))
  {
    assert LogOk(c, s, r);
  }

  lemma OwnView(s: State, i: nat)
    requires i < |s.sessions| && HoldsOk(s, i) && Unanswered(s.sessions[i].pc)
    ensures var x := s.sessions[i];
            FlightOf(s, x.id) == PcFlight(x.pc) && FetchOf(s, x.id) == PcFetch(s, x.id, x.pc)
  {
  }

  lemma CarryKeepsMembers(c: Config, s: State, t: State, i: nat)
    requires LogInv(c, s) && Moved(s, t, i) && HoldsOk(s, i) && Carries(s, t, i) && MemberInv(s)
    ensures MemberInv(t)
  {
    OwnView(s, i);
    forall r | 0 <= r < |t.log| ensures FlightOf(t, r) == Joined(t, r) {
      if r != s.sessions[i].id {
        OthersView(c, s, t, i, r);
      }
    }
    forall f | 0 <= f < |t.records| ensures Joined(t, t.records[f].opener) == Some(f) {
      assert Joined(s, s.records[f].opener) == Some(f);
    }
  }

  lemma KeptPicks(c: Config, s: State, t: State, i: nat, k: nat)
    requires LogInv(c, s) && Moved(s, t, i) && HoldsOk(s, i) && Spared(s, t, s.sessions[i].id)
    requires KeepsFetch(PcFetch(s, s.sessions[i].id, s.sessions[i].pc), FetchOf(t, s.sessions[i].id))
    requires PickInv(c, s) && k < |s.poolOps| <= |t.poolOps| == |t.origins.pool|
    requires t.poolOps[..|s.poolOps|] == s.poolOps && t.origins.pool[..|s.poolOps|] == s.origins.pool
    ensures PickTold(c, t, k)
  {
    assert PickTold(c, s, k);
    assert t.poolOps[..k] == s.poolOps[..k];
    assert t.poolOps[k] == s.poolOps[k] && t.origins.pool[k] == s.origins.pool[k];
    OwnView(s, i);
    var r := s.origins.pool[k];
    if r < |s.log| && r != s.sessions[i].id {
      OthersView(c, s, t, i, r);
    }
  }

  lemma CarryKeepsPicks(c: Config, s: State, t: State, i: nat)
    requires LogInv(c, s) && Moved(s, t, i) && HoldsOk(s, i) && Carries(s, t, i) && PickInv(c, s) && SamePicks(s, t)
    ensures PickInv(c, t)
  {
    forall k | 0 <= k < |t.poolOps| ensures PickTold(c, t, k) {
      KeptPicks(c, s, t, i, k);
    }
  }

  /** Steps after which the request's flight and fetch are the same. */
  lemma CountCarries(s: State, i: nat)
    requires i < |s.sessions| && HoldsOk(s, i)
    ensures s.sessions[i].pc.Counting? ==>
              var t := CountRequestStep(s, i); Moved(s, t, i) && Carries(s, t, i) && SamePicks(s, t)
    ensures s.sessions[i].pc.HitFound? ==>
              var t := CountHitStep(s, i); Moved(s, t, i) && Carries(s, t, i) && SamePicks(s, t)
    ensures s.sessions[i].pc.MissFound? ==>
              var t := CountMissStep(s, i); Moved(s, t, i) && Carries(s, t, i) && SamePicks(s, t)
  {
  }

  lemma RoleCarries(s: State, i: nat)
    requires i < |s.sessions| && HoldsOk(s, i)
    ensures s.sessions[i].pc.FollowerJoined? ==>
              var t := CountFollowerStep(s, i); Moved(s, t, i) && Carries(s, t, i) && SamePicks(s, t)
    ensures s.sessions[i].pc.LeaderJoined? ==>
              var t := CountLeaderStep(s, i); Moved(s, t, i) && Carries(s, t, i) && SamePicks(s, t)
  {
  }

  lemma DispatchCarries(s: State, i: nat, rendered: string)
    requires i < |s.sessions| && HoldsOk(s, i) && s.sessions[i].pc.Dispatching?
    ensures var t := DispatchStep(s, i, rendered); Moved(s, t, i) && Carries(s, t, i) && SamePicks(s, t)
  {
  }

  lemma LaunchCarries(c: Config, s: State, i: nat)
    requires Sized(c, s) && i < |s.sessions| && HoldsOk(s, i) && s.sessions[i].pc.Launching?
    requires s.sessions[i].pc.fetch.upstream < |c.endpoints|
    ensures var t := LaunchStep(c, s, i); Moved(s, t, i) && Carries(s, t, i) && SamePicks(s, t)
  {
  }

  lemma UpstreamCarries(s: State, i: nat, e: Px.Event)
    requires i < |s.sessions| && HoldsOk(s, i) && s.sessions[i].pc.Fetching? && s.sessions[i].pc.proxy.Pending?
    ensures var t := UpstreamStep(s, i, e); Moved(s, t, i) && Carries(s, t, i) && SamePicks(s, t)
  {
  }

  lemma FetchedCarries(s: State, i: nat)
    requires i < |s.sessions| && HoldsOk(s, i) && s.sessions[i].pc.Fetched?
    requires LeadData(s, s.sessions[i], s.sessions[i].pc.lead)
    ensures var t := FetchedStep(s, i); Moved(s, t, i) && Carries(s, t, i) && SamePicks(s, t)
  {
    var t := FetchedStep(s, i);
    if s.sessions[i].pc.lead.Some? {
      var f := s.sessions[i].pc.lead.value;
      assert t.records == s.records[f := s.records[f].(result := t.records[f].result, attempt := t.records[f].attempt)];
    } else {
      assert t.records == s.records;
    }
  }

  lemma StoreCarries(c: Config, s: State, i: nat)
    requires ValidConfig(c) && i < |s.sessions| && HoldsOk(s, i) && s.sessions[i].pc.Storing?
    ensures var t := StoreStep(c, s, i); Moved(s, t, i) && Carries(s, t, i) && SamePicks(s, t)
  {
  }

  lemma EndCarries(s: State, i: nat)
    requires i < |s.sessions| && HoldsOk(s, i)
    ensures s.sessions[i].pc.Completing? ==>
              var t := CompleteStep(s, i); Moved(s, t, i) && Carries(s, t, i) && SamePicks(s, t)
    ensures s.sessions[i].pc.Responding? ==>
              var t := RespondStep(s, i); Moved(s, t, i) && Carries(s, t, i) && SamePicks(s, t)
  {
  }

  lemma PostCarries(s: State, i: nat)
    requires i < |s.sessions| && HoldsOk(s, i) && s.sessions[i].pc.Posting?
    ensures var t := PostStep(s, i); Moved(s, t, i) && Carries(s, t, i) && SamePicks(s, t)
  {
  }

  /** A delivery comes from the flight that was joined, also when a later flight for the same key is under way. */
  lemma DeliverCarries(s: State, i: nat)
    requires i < |s.sessions| && HoldsOk(s, i) && s.sessions[i].pc.Awaiting? && s.sessions[i].inbox != []
    requires FP.Inv(TableOf(s))
    ensures var t := DeliverStep(s, i); Moved(s, t, i) && Carries(s, t, i) && SamePicks(s, t)
  {
    var x := s.sessions[i];
    assert FP.PartOk(TableOf(s), i);
    assert BoxOf(x.inbox)[0] == x.inbox[0].flight;
  }

  lemma AdvanceCarries(c: Config, s: State, i: nat, rendered: string)
    requires Sized(c, s) && FP.Inv(TableOf(s)) && i < |s.sessions| && CanAdvance(c, s.sessions[i])
    requires PcOk(c, s, s.sessions[i]) && HoldsOk(s, i)
    requires !s.sessions[i].pc.Joining? && !s.sessions[i].pc.Selecting?
    ensures var t := AdvanceStep(c, s, i, rendered); Moved(s, t, i) && Carries(s, t, i) && SamePicks(s, t)
  {
    CountCarries(s, i);
    RoleCarries(s, i);
    EndCarries(s, i);
    match s.sessions[i].pc
    case Dispatching => DispatchCarries(s, i, rendered);
    case Launching(_, _, _) => LaunchCarries(c, s, i);
    case Fetched(_, _, _) => FetchedCarries(s, i);
    case Storing(_, _, _) => StoreCarries(c, s, i);
    case Posting(_, _, _) => PostCarries(s, i);
    case Awaiting(_) => DeliverCarries(s, i);
    case _ =>
  }

  // ---------- Joining and selecting ----------

  lemma JoinMoves(s: State, i: nat)
    requires i < |s.sessions| && HoldsOk(s, i) && s.sessions[i].pc.Joining?
    ensures var t, x := JoinStep(s, i), s.sessions[i];
            && Moved(s, t, i) && Spared(s, t, x.id) && SamePicks(s, t)
            && PcFlight(t.sessions[i].pc).Some?
            && t.origins.joins == s.origins.joins[x.id := PcFlight(t.sessions[i].pc).value]
            && forall f :: |s.records| <= f < |t.records| ==>
                 t.records[f].opener == x.id && PcFlight(t.sessions[i].pc) == Some(f)
  {
  }

  lemma JoinKeepsMembers(c: Config, s: State, i: nat)
    requires LogInv(c, s) && MemberInv(s) && i < |s.sessions| && HoldsOk(s, i) && s.sessions[i].pc.Joining?
    ensures MemberInv(JoinStep(s, i))
  {
    var t, x := JoinStep(s, i), s.sessions[i];
    JoinMoves(s, i);
    OwnView(s, i);
    forall r | 0 <= r < |t.log| ensures FlightOf(t, r) == Joined(t, r) {
      if r != x.id {
        OthersView(c, s, t, i, r);
      }
    }
    forall f | 0 <= f < |t.records| ensures Joined(t, t.records[f].opener) == Some(f) {
      assert f < |s.records| ==> Joined(s, s.records[f].opener) == Some(f);
    }
  }

  lemma JoinKeepsPicks(c: Config, s: State, i: nat)
    requires LogInv(c, s) && PickInv(c, s) && i < |s.sessions| && HoldsOk(s, i) && s.sessions[i].pc.Joining?
    ensures PickInv(c, JoinStep(s, i))
  {
    var t := JoinStep(s, i);
    JoinMoves(s, i);
    forall k | 0 <= k < |t.poolOps| ensures PickTold(c, t, k) {
      KeptPicks(c, s, t, i, k);
    }
  }

  lemma SelectCarries(c: Config, s: State, i: nat)
    requires Sized(c, s) && i < |s.sessions| && HoldsOk(s, i) && s.sessions[i].pc.Selecting?
    requires LeadData(s, s.sessions[i], s.sessions[i].pc.lead)
    ensures Moved(s, SelectStep(c, s, i), i) && Carries(s, SelectStep(c, s, i), i)
  {
  }

  lemma SelectPicks(c: Config, s: State, i: nat)
    requires Sized(c, s) && i < |s.sessions| && HoldsOk(s, i) && s.sessions[i].pc.Selecting?
    ensures var t, x := SelectStep(c, s, i), s.sessions[i];
            && t.poolOps == s.poolOps + [Fair.SelectOp] && t.origins.pool == s.origins.pool + [x.id] && x.id < |t.log|
            && (Pool.Choice(s.pool).Some? ==>
                  FetchOf(t, x.id) == Some(Fetch(|s.poolOps|, Pool.Choice(s.pool).value, [])))
  {
  }

  lemma SelectKeepsPicks(c: Config, s: State, i: nat)
    requires HistoryInv(c, s) && LogInv(c, s) && PickInv(c, s) && i < |s.sessions| && HoldsOk(s, i)
    requires s.sessions[i].pc.Selecting? && LeadData(s, s.sessions[i], s.sessions[i].pc.lead)
    ensures PickInv(c, SelectStep(c, s, i))
  {
    var t, n := SelectStep(c, s, i), |s.poolOps|;
    SelectCarries(c, s, i);
    SelectPicks(c, s, i);
    assert t.poolOps[..n] == s.poolOps && t.origins.pool[..n] == s.origins.pool;
    forall k | 0 <= k < |t.poolOps| ensures PickTold(c, t, k) {
      if k < n {
        KeptPicks(c, s, t, i, k);
      }
    }
  }

  // ---------- Every step ----------

  /** A session step of any kind. */
  lemma AdvanceKeepsViews(c: Config, s: State, i: nat, rendered: string)
    requires Inv(c, s) && MemberInv(s) && PickInv(c, s) && i < |s.sessions| && CanAdvance(c, s.sessions[i])
    ensures MemberInv(AdvanceStep(c, s, i, rendered)) && PickInv(c, AdvanceStep(c, s, i, rendered))
  {
    assert HoldsOk(s, i) && SessionOk(c, s, s.sessions[i]);
    var t := AdvanceStep(c, s, i, rendered);
    if s.sessions[i].pc.Joining? {
      JoinKeepsMembers(c, s, i);
      JoinKeepsPicks(c, s, i);
    } else if s.sessions[i].pc.Selecting? {
      SelectCarries(c, s, i);
      CarryKeepsMembers(c, s, t, i);
      SelectKeepsPicks(c, s, i);
    } else {
      AdvanceCarries(c, s, i, rendered);
      CarryKeepsMembers(c, s, t, i);
      CarryKeepsPicks(c, s, t, i);
    }
  }

  /** Steps of sessions between requests, of the clock and of the monitor leave every request as it is. */
  ghost predicate Aside(s: State, t: State) {
    && t.log == s.log && t.records == s.records && t.origins.joins == s.origins.joins && |s.sessions| <= |t.sessions|
    && forall j :: 0 <= j < |s.sessions| && Unanswered(s.sessions[j].pc) ==> t.sessions[j].pc == s.sessions[j].pc
  }

  lemma AsideView(c: Config, s: State, t: State, r: nat)
    requires LogInv(c, s) && Aside(s, t) && r < |s.log|
    ensures FlightOf(t, r) == FlightOf(s, r) && FetchOf(t, r) == FetchOf(s, r)
  {
    assert LogOk(c, s, r);
  }

  lemma AsideKeepsMembers(c: Config, s: State, t: State)
    requires LogInv(c, s) && Aside(s, t) && MemberInv(s)
    ensures MemberInv(t)
  {
    forall r | 0 <= r < |t.log| ensures FlightOf(t, r) == Joined(t, r) {
      AsideView(c, s, t, r);
    }
    forall f | 0 <= f < |t.records| ensures Joined(t, t.records[f].opener) == Some(f) {
      assert Joined(s, s.records[f].opener) == Some(f);
    }
  }

  lemma AsideKeepsPicks(c: Config, s: State, t: State)
    requires LogInv(c, s) && Aside(s, t) && PickInv(c, s) && |t.origins.pool| == |t.poolOps|
    requires s.poolOps <= t.poolOps && s.origins.pool <= t.origins.pool
    requires forall k :: |s.poolOps| <= k < |t.poolOps| ==> !t.poolOps[k].SelectOp?
    ensures PickInv(c, t)
  {
    forall k | 0 <= k < |t.poolOps| ensures PickTold(c, t, k) {
      if k < |s.poolOps| {
        assert PickTold(c, s, k);
        assert t.poolOps[..k] == s.poolOps[..k];
        if s.origins.pool[k] < |s.log| {
          AsideView(c, s, t, s.origins.pool[k]);
        }
      }
    }
  }

  lemma ReadView(c: Config, s: State, i: nat, q: Request, r: nat)
    requires LogInv(c, s) && Enabled(c, s, ReadRequest(i, q)) && r < |s.log|
    ensures var t := Apply(c, s, ReadRequest(i, q));
            && FlightOf(t, r) == FlightOf(s, r) && FetchOf(t, r) == FetchOf(s, r)
  {
    assert LogOk(c, s, r);
  }

  lemma ReadKeepsViews(c: Config, s: State, i: nat, q: Request)
    requires LogInv(c, s) && Enabled(c, s, ReadRequest(i, q)) && MemberInv(s) && PickInv(c, s)
    ensures MemberInv(Apply(c, s, ReadRequest(i, q))) && PickInv(c, Apply(c, s, ReadRequest(i, q)))
  {
    var t := Apply(c, s, ReadRequest(i, q));
    forall r | 0 <= r < |t.log| ensures FlightOf(t, r) == Joined(t, r) {
      if r < |s.log| {
        ReadView(c, s, i, q, r);
      }
    }
    forall f | 0 <= f < |t.records| ensures Joined(t, t.records[f].opener) == Some(f) {
      assert Joined(s, s.records[f].opener) == Some(f);
    }
    forall k | 0 <= k < |t.poolOps| ensures PickTold(c, t, k) {
      assert PickTold(c, s, k);
      if s.origins.pool[k] < |s.log| {
        ReadView(c, s, i, q, s.origins.pool[k]);
      }
    }
  }

  lemma UpstreamKeepsViews(c: Config, s: State, i: nat, e: Px.Event)
    requires LogInv(c, s) && MemberInv(s) && PickInv(c, s)
    requires i < |s.sessions| && s.sessions[i].pc.Fetching? && s.sessions[i].pc.proxy.Pending?
    ensures MemberInv(UpstreamStep(s, i, e)) && PickInv(c, UpstreamStep(s, i, e))
  {
    assert HoldsOk(s, i);
    UpstreamCarries(s, i, e);
    CarryKeepsMembers(c, s, UpstreamStep(s, i, e), i);
    CarryKeepsPicks(c, s, UpstreamStep(s, i, e), i);
  }

  /** Each step keeps every request in the flight it joined, and every selection with the fetch made for it. */
  lemma ViewsStep(c: Config, s: State, a: Action)
    requires Inv(c, s) && MemberInv(s) && PickInv(c, s) && Enabled(c, s, a)
    ensures MemberInv(Apply(c, s, a)) && PickInv(c, Apply(c, s, a))
  {
    var t := Apply(c, s, a);
    match a
    case ReadRequest(i, q) => ReadKeepsViews(c, s, i, q);
    case Advance(i, rendered) => AdvanceKeepsViews(c, s, i, rendered);
    case UpstreamEvent(i, e) => UpstreamKeepsViews(c, s, i, e);
    case _ =>
      AsideKeepsMembers(c, s, t);
      AsideKeepsPicks(c, s, t);
  }
}
