/** Every step of the session protocol is a step of the flight protocol, or none. */
module FlightRefinement {
  import opened Http
  import opened Coalescing
  import opened Session
  import opened SessionInvariants
  import FP = FlightProtocol
  import Pool = UpstreamPools
  import Px = Proxying

  /** Moving one session changes its part and nothing else. */
  lemma MoveParts(s: State, i: nat, pc: PC)
    requires i < |s.sessions|
    ensures Parts(At(s, i, pc).sessions) == Parts(s.sessions)[i := PartOf(pc)]
    ensures Boxes(At(s, i, pc).sessions) == Boxes(s.sessions)
  {
  }

  lemma QuietMove(s: State, i: nat, pc: PC)
    requires i < |s.sessions| && PartOf(pc) == PartOf(s.sessions[i].pc)
    ensures Parts(At(s, i, pc).sessions) == Parts(s.sessions)
    ensures Boxes(At(s, i, pc).sessions) == Boxes(s.sessions)
  {
    MoveParts(s, i, pc);
    assert Parts(s.sessions)[i := PartOf(pc)] == Parts(s.sessions);
  }

  lemma SettleTable(s: State, i: nat, f: nat, r: Response, attempt: Attempt)
    requires i < |s.sessions| && PartOf(s.sessions[i].pc) == FP.Leads(f)
    ensures TableOf(Settle(s, i, f, r, attempt)) == TableOf(s)
  {
    QuietMove(s, i, Storing(f, r, attempt.Made?));
    assert Owners(Settle(s, i, f, r, attempt).records) == Owners(s.records);
  }

  lemma JoinTable(s: State, i: nat)
    requires i < |s.sessions| && s.sessions[i].pc.Joining? && s.current.Keys == s.flights.Keys
    ensures var key := s.sessions[i].request.target;
            TableOf(JoinStep(s, i))
            == if key in s.flights then FP.Follow(TableOf(s), i, key) else FP.Lead(TableOf(s), i, key)
  {
    var key := s.sessions[i].request.target;
    if key in s.flights {
      MoveParts(s, i, FollowerJoined(s.current[key]));
    } else {
      MoveParts(s, i, LeaderJoined(|s.records|));
      assert Owners(JoinStep(s, i).records) == Owners(s.records) + [FP.Owner(key, i)];
    }
  }

  lemma CompleteTable(s: State, i: nat)
    requires i < |s.sessions| && s.sessions[i].pc.Completing?
    ensures TableOf(CompleteStep(s, i)) == FP.Close(TableOf(s), i, s.sessions[i].pc.flight, s.sessions[i].request.target)
  {
    var x := s.sessions[i];
    MoveParts(s, i, Posting(x.pc.flight, x.pc.response, Released(s.flights, x.request.target)));
  }

  lemma PostTable(s: State, i: nat)
    requires i < |s.sessions| && s.sessions[i].pc.Posting? && s.sessions[i].pc.waiters != []
    requires s.sessions[i].pc.waiters[0] < |s.sessions|
    ensures TableOf(PostStep(s, i)) == FP.Post(TableOf(s), i)
  {
    var Posting(f, r, ws) := s.sessions[i].pc;
    var moved := At(s, i, Posting(f, r, ws[1..]));
    MoveParts(s, i, Posting(f, r, ws[1..]));
    var w := ws[0];
    var t := PostStep(s, i);
    assert Parts(t.sessions) == Parts(moved.sessions);
    assert BoxOf(t.sessions[w].inbox) == BoxOf(s.sessions[w].inbox) + [f];
    assert Boxes(t.sessions) == Boxes(s.sessions)[w := BoxOf(s.sessions[w].inbox) + [f]];
  }

  lemma FinishTable(s: State, i: nat)
    requires i < |s.sessions| && s.sessions[i].pc.Posting? && s.sessions[i].pc.waiters == []
    ensures TableOf(PostStep(s, i)) == FP.Finish(TableOf(s), i)
  {
    var x := s.sessions[i];
    MoveParts(s, i, Responding(Fit(x.pc.response, x.request), FromFlight(x.pc.flight)));
  }

  lemma DeliverTable(s: State, i: nat)
    requires i < |s.sessions| && s.sessions[i].inbox != []
    ensures TableOf(DeliverStep(s, i)) == FP.Take(TableOf(s), i)
  {
    var t := DeliverStep(s, i);
    assert BoxOf(t.sessions[i].inbox) == BoxOf(s.sessions[i].inbox)[1..];
    assert Parts(t.sessions) == Parts(s.sessions)[i := FP.Free];
    assert Boxes(t.sessions) == Boxes(s.sessions)[i := BoxOf(s.sessions[i].inbox)[1..]];
  }

  lemma QuietEffect(s: State, t: State, i: nat)
    requires i < |s.sessions| && |t.sessions| == |s.sessions|
    requires t.sessions == s.sessions[i := s.sessions[i].(pc := t.sessions[i].pc)]
    requires PartOf(t.sessions[i].pc) == PartOf(s.sessions[i].pc)
    requires t.flights == s.flights && t.current == s.current && Owners(t.records) == Owners(s.records)
    ensures TableOf(t) == TableOf(s)
  {
    QuietMove(s, i, t.sessions[i].pc);
  }

  lemma SelectTable(c: Config, s: State, i: nat)
    requires Sized(c, s) && i < |s.sessions| && s.sessions[i].pc.Selecting?
    ensures TableOf(SelectStep(c, s, i)) == TableOf(s)
  {
    var t, lead := SelectStep(c, s, i), s.sessions[i].pc.lead;
    if lead.Some? && Pool.Choice(s.pool).None? {
      var u := s.(pool := Pool.SelectState(s.pool), poolOps := t.poolOps);
      SettleTable(u, i, lead.value, ServiceUnavailable(s.sessions[i].request), Refused(|s.poolOps|));
    } else {
      QuietEffect(s, t, i);
    }
  }

  lemma FetchedTable(s: State, i: nat)
    requires i < |s.sessions| && s.sessions[i].pc.Fetched?
    ensures TableOf(FetchedStep(s, i)) == TableOf(s)
  {
    var t, pc := FetchedStep(s, i), s.sessions[i].pc;
    if pc.lead.Some? {
      SettleTable(s.(tally := t.tally), i, pc.lead.value, pc.response, Made(pc.fetch));
    } else {
      QuietEffect(s, t, i);
    }
  }

  lemma DispatchTable(s: State, i: nat, rendered: string)
    requires i < |s.sessions| && s.sessions[i].pc.Dispatching?
    ensures TableOf(DispatchStep(s, i, rendered)) == TableOf(s)
  {
    if LocalRoute(s.sessions[i].request) {
      LocalTable(s, i, rendered);
    } else if CacheableRequest(s.sessions[i].request) {
      LookupTable(s, i, rendered);
    } else {
      BypassTable(s, i, rendered);
    }
  }

  lemma LocalTable(s: State, i: nat, rendered: string)
    requires i < |s.sessions| && s.sessions[i].pc.Dispatching? && LocalRoute(s.sessions[i].request)
    ensures TableOf(DispatchStep(s, i, rendered)) == TableOf(s)
  {
    QuietEffect(s, DispatchStep(s, i, rendered), i);
  }

  lemma LookupTable(s: State, i: nat, rendered: string)
    requires i < |s.sessions| && s.sessions[i].pc.Dispatching? && CacheRoute(s.sessions[i].request)
    ensures TableOf(DispatchStep(s, i, rendered)) == TableOf(s)
  {
    QuietEffect(s, DispatchStep(s, i, rendered), i);
  }

  lemma BypassTable(s: State, i: nat, rendered: string)
    requires i < |s.sessions| && s.sessions[i].pc.Dispatching? && BypassRoute(s.sessions[i].request)
    ensures TableOf(DispatchStep(s, i, rendered)) == TableOf(s)
  {
    QuietEffect(s, DispatchStep(s, i, rendered), i);
  }

  lemma LaunchTable(c: Config, s: State, i: nat)
    requires Sized(c, s) && i < |s.sessions| && s.sessions[i].pc.Launching?
    requires s.sessions[i].pc.fetch.upstream < |c.endpoints|
    ensures TableOf(LaunchStep(c, s, i)) == TableOf(s)
  {
    QuietEffect(s, LaunchStep(c, s, i), i);
  }

  lemma StoreTable(c: Config, s: State, i: nat)
    requires ValidConfig(c) && i < |s.sessions| && s.sessions[i].pc.Storing?
    ensures TableOf(StoreStep(c, s, i)) == TableOf(s)
  {
    assert Owners(StoreStep(c, s, i).records) == Owners(s.records);
    QuietEffect(s, StoreStep(c, s, i), i);
  }

  lemma RespondTable(s: State, i: nat)
    requires i < |s.sessions| && s.sessions[i].pc.Responding?
    ensures TableOf(RespondStep(s, i)) == TableOf(s)
  {
    QuietEffect(s, RespondStep(s, i), i);
  }

  lemma CountTable(s: State, i: nat)
    requires i < |s.sessions|
    ensures s.sessions[i].pc.Counting? ==> TableOf(CountRequestStep(s, i)) == TableOf(s)
    ensures s.sessions[i].pc.HitFound? ==> TableOf(CountHitStep(s, i)) == TableOf(s)
    ensures s.sessions[i].pc.MissFound? ==> TableOf(CountMissStep(s, i)) == TableOf(s)
    ensures s.sessions[i].pc.FollowerJoined? ==> TableOf(CountFollowerStep(s, i)) == TableOf(s)
    ensures s.sessions[i].pc.LeaderJoined? ==> TableOf(CountLeaderStep(s, i)) == TableOf(s)
  {
    match s.sessions[i].pc
    case Counting => QuietEffect(s, CountRequestStep(s, i), i);
    case HitFound(_, _) => QuietEffect(s, CountHitStep(s, i), i);
    case MissFound(_) => QuietEffect(s, CountMissStep(s, i), i);
    case FollowerJoined(_) => QuietEffect(s, CountFollowerStep(s, i), i);
    case LeaderJoined(_) => QuietEffect(s, CountLeaderStep(s, i), i);
    case _ =>
  }

  /** The steps that do not concern flights leave the table as it is. */
  lemma QuietStep(c: Config, s: State, i: nat, rendered: string)
    requires Sized(c, s) && i < |s.sessions| && CanAdvance(c, s.sessions[i])
    requires var pc := s.sessions[i].pc;
             !pc.Joining? && !pc.Completing? && !pc.Posting? && !pc.Awaiting?
    ensures TableOf(AdvanceStep(c, s, i, rendered)) == TableOf(s)
  {
    CountTable(s, i);
    match s.sessions[i].pc
    case Dispatching => DispatchTable(s, i, rendered);
    case Selecting(_) => SelectTable(c, s, i);
    case Launching(_, _, _) => LaunchTable(c, s, i);
    case Fetched(_, _, _) => FetchedTable(s, i);
    case Storing(_, _, _) => StoreTable(c, s, i);
    case Responding(_, _) => RespondTable(s, i);
    case _ =>
  }

  lemma UpstreamTable(s: State, i: nat, e: Px.Event)
    requires i < |s.sessions| && s.sessions[i].pc.Fetching? && s.sessions[i].pc.proxy.Pending?
    ensures TableOf(UpstreamStep(s, i, e)) == TableOf(s)
  {
    QuietMove(s, i, UpstreamStep(s, i, e).sessions[i].pc);
  }

  /** The step of the flight protocol that a step of a session is. */
  ghost function FlightStep(s: State, i: nat): Option<FP.Action>
    requires i < |s.sessions|
  {
    var x := s.sessions[i];
    match x.pc
    case Joining(_) =>
      Some(if x.request.target in s.flights then FP.FollowAction(i, x.request.target)
           else FP.LeadAction(i, x.request.target))
    case Completing(_, _) => Some(FP.CloseAction(i))
    case Posting(_, _, ws) => Some(if ws == [] then FP.FinishAction(i) else FP.PostAction(i))
    case Awaiting(_) => Some(FP.TakeAction(i))
    case _ => None
  }

  ghost function FlightAction(s: State, a: Action): Option<FP.Action> {
    match a
    case AcceptSession => Some(FP.AcceptAction)
    case Advance(i, _) => if i < |s.sessions| then FlightStep(s, i) else None
    case _ => None
  }

  /** `u` is `t` after this action, or `t` itself if there is none. */
  ghost predicate Follows(t: FP.Table, a: Option<FP.Action>, u: FP.Table) {
    if a.Some? then FP.Enabled(t, a.value) && u == FP.Apply(t, a.value) else u == t
  }

  lemma AdvanceFollows(c: Config, s: State, i: nat, rendered: string)
    requires Sized(c, s) && FP.Inv(TableOf(s)) && i < |s.sessions| && CanAdvance(c, s.sessions[i])
    requires SessionOk(c, s, s.sessions[i])
    ensures Follows(TableOf(s), FlightStep(s, i), TableOf(AdvanceStep(c, s, i, rendered)))
  {
    match s.sessions[i].pc
    case Joining(_) => JoinFollows(s, i);
    case Completing(_, _) => CompleteFollows(c, s, i);
    case Posting(_, _, _) => PostFollows(s, i);
    case Awaiting(_) => TakeFollows(s, i);
    case _ => QuietStep(c, s, i, rendered);
  }

  lemma JoinFollows(s: State, i: nat)
    requires s.current.Keys == s.flights.Keys && i < |s.sessions| && s.sessions[i].pc.Joining?
    ensures Follows(TableOf(s), FlightStep(s, i), TableOf(JoinStep(s, i)))
  {
    JoinTable(s, i);
  }

  lemma TakeFollows(s: State, i: nat)
    requires i < |s.sessions| && s.sessions[i].pc.Awaiting? && s.sessions[i].inbox != []
    ensures Follows(TableOf(s), FlightStep(s, i), TableOf(DeliverStep(s, i)))
  {
    DeliverTable(s, i);
  }

  lemma CompleteFollows(c: Config, s: State, i: nat)
    requires FP.Inv(TableOf(s)) && i < |s.sessions| && s.sessions[i].pc.Completing? && SessionOk(c, s, s.sessions[i])
    ensures Follows(TableOf(s), Some(FP.CloseAction(i)), TableOf(CompleteStep(s, i)))
  {
    assert FP.PartOk(TableOf(s), i);
    CompleteTable(s, i);
  }

  lemma PostFollows(s: State, i: nat)
    requires FP.Inv(TableOf(s)) && i < |s.sessions| && s.sessions[i].pc.Posting?
    ensures Follows(TableOf(s), FlightStep(s, i), TableOf(PostStep(s, i)))
  {
    var Posting(f, _, ws) := s.sessions[i].pc;
    assert FP.PartOk(TableOf(s), i);
    if ws == [] {
      FinishTable(s, i);
    } else {
      assert FP.WaitsUnposted(TableOf(s), ws[0], f);
      PostTable(s, i);
    }
  }

  /** Every step of the session protocol is this step of the flight protocol, or none. */
  lemma FlightsStep(c: Config, s: State, a: Action)
    requires Inv(c, s) && Enabled(c, s, a)
    ensures Follows(TableOf(s), FlightAction(s, a), TableOf(Apply(c, s, a)))
  {
    var t := Apply(c, s, a);
    match a
    case AcceptSession =>
      assert Parts(t.sessions) == Parts(s.sessions) + [FP.Free];
      assert Boxes(t.sessions) == Boxes(s.sessions) + [[]];
    case Tick(_) =>
    case SetHealth(_, _) =>
    case ReadRequest(i, q) =>
      assert Parts(t.sessions) == Parts(s.sessions) && Boxes(t.sessions) == Boxes(s.sessions);
    case ReadFails(i) => QuietMove(s, i, Closed);
    case Advance(i, rendered) =>
      assert SessionOk(c, s, s.sessions[i]);
      AdvanceFollows(c, s, i, rendered);
    case UpstreamEvent(i, e) => UpstreamTable(s, i, e);
    case WriteEnds(i, again) => QuietMove(s, i, if again then Reading else Closed);
  }

  lemma FlightsKeep(c: Config, s: State, a: Action)
    requires Inv(c, s) && Enabled(c, s, a)
    ensures FP.Inv(TableOf(Apply(c, s, a)))
  {
    FlightsStep(c, s, a);
    if FlightAction(s, a).Some? {
      FP.StepKeeps(TableOf(s), FlightAction(s, a).value);
    }
  }
}
