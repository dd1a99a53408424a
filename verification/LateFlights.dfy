/**
 * How many late flights there can be: while the cache holds a key, every flight that starts for it is led by a session
 * that had missed it before, so there are at most as many as there were such sessions.
 */
module LateFlights {
  import opened Http
  import opened Session
  import opened SessionInvariants
  import opened Conservation
  import opened SessionTheorems
  import FP = FlightProtocol
  import FR = FlightRefinement
  import Lru = RecencyList

  /** A session between its miss and its join, and the key it missed. */
  function Late(x: Session): Option<string> {
    if x.pc.MissFound? || x.pc.Joining? then Some(x.request.target) else None
  }

  function AllLate(sessions: seq<Session>): (keys: seq<Option<string>>)
    ensures |keys| == |sessions|
    ensures forall i :: 0 <= i < |keys| ==> keys[i] == Late(sessions[i])
  {
    seq(|sessions|, i requires 0 <= i < |sessions| => Late(sessions[i]))
  }

  function Is(key: string): Option<string> -> int {
    (k: Option<string>) => One(k == Some(key))
  }

  /** How many sessions have missed `key` and not joined a flight yet. */
  function LateSessions(s: State, key: string): int {
    Total(AllLate(s.sessions), Is(key))
  }

  function OwnedFor(owners: seq<FP.Owner>, key: string): nat {
    if owners == [] then 0
    else OwnedFor(owners[..|owners| - 1], key) + if owners[|owners| - 1].key == key then 1 else 0
  }

  /** How many flights for `key` have ever started. */
  function FlightsFor(s: State, key: string): nat {
    OwnedFor(Owners(s.records), key)
  }

  // ---------- What a step does ----------

  /** Only the session that acts may become late or cease to be. */
  ghost predicate OnlyOne(s: State, t: State, i: nat) {
    && i < |s.sessions| == |t.sessions|
    && forall j :: 0 <= j < |s.sessions| && j != i ==> Late(t.sessions[j]) == Late(s.sessions[j])
  }

  lemma LateMoves(s: State, t: State, i: nat, key: string)
    requires OnlyOne(s, t, i)
    ensures LateSessions(t, key) == LateSessions(s, key) - Is(key)(Late(s.sessions[i])) + Is(key)(Late(t.sessions[i]))
  {
    assert AllLate(t.sessions) == AllLate(s.sessions)[i := Late(t.sessions[i])];
    TotalUpdate(AllLate(s.sessions), i, Late(t.sessions[i]), Is(key));
  }

  /** While the cache holds a key, looking it up is a hit. */
  lemma LookupOfHeldKey(s: State, i: nat, rendered: string, key: string)
    requires i < |s.sessions| && s.sessions[i].pc.Dispatching?
    requires Lru.Has(s.cache, key) && Lru.Has(DispatchStep(s, i, rendered).cache, key)
    ensures Late(DispatchStep(s, i, rendered).sessions[i]) != Some(key)
  {
    var x := s.sessions[i];
    DispatchTouchesOne(s, i, rendered);
    if CacheRoute(x.request) && x.request.target == key {
      DispatchLooksUp(s, i, rendered);
      Lru.WithoutMembers(s.cache, key);
    }
  }

  lemma DispatchTouchesOne(s: State, i: nat, rendered: string)
    requires i < |s.sessions|
    ensures OnlyOne(s, DispatchStep(s, i, rendered), i)
    ensures var t, x := DispatchStep(s, i, rendered), s.sessions[i];
            t.sessions[i].request == x.request && (t.sessions[i].pc.MissFound? ==> CacheRoute(x.request))
            && !t.sessions[i].pc.Joining?
  {
  }

  lemma JoinIsLateNoMore(s: State, i: nat)
    requires i < |s.sessions| && s.sessions[i].pc.Joining?
    ensures OnlyOne(s, JoinStep(s, i), i) && Late(JoinStep(s, i).sessions[i]).None?
  {
  }

  lemma MissStaysLate(s: State, i: nat)
    requires i < |s.sessions| && s.sessions[i].pc.MissFound?
    ensures OnlyOne(s, CountMissStep(s, i), i) && Late(CountMissStep(s, i).sessions[i]) == Late(s.sessions[i])
  {
  }

  /** No other step makes a session late. */
  ghost predicate OtherPlace(pc: PC) {
    !pc.Dispatching? && !pc.MissFound? && !pc.Joining?
  }

  ghost predicate SameRequests(s: State, t: State) {
    && |t.sessions| == |s.sessions|
    && forall j :: 0 <= j < |s.sessions| ==> t.sessions[j].request == s.sessions[j].request
  }

  lemma CountersKeepRequests(s: State, i: nat)
    requires i < |s.sessions|
    ensures s.sessions[i].pc.Counting? ==> SameRequests(s, CountRequestStep(s, i))
    ensures s.sessions[i].pc.HitFound? ==> SameRequests(s, CountHitStep(s, i))
    ensures s.sessions[i].pc.FollowerJoined? ==> SameRequests(s, CountFollowerStep(s, i))
    ensures s.sessions[i].pc.LeaderJoined? ==> SameRequests(s, CountLeaderStep(s, i))
  {
  }

  lemma FetchKeepsRequests(c: Config, s: State, i: nat)
    requires Sized(c, s) && i < |s.sessions|
    ensures s.sessions[i].pc.Selecting? ==> SameRequests(s, SelectStep(c, s, i))
    ensures s.sessions[i].pc.Launching? && s.sessions[i].pc.fetch.upstream < |c.endpoints| ==>
              SameRequests(s, LaunchStep(c, s, i))
    ensures s.sessions[i].pc.Fetched? ==> SameRequests(s, FetchedStep(s, i))
  {
  }

  lemma EndKeepsRequests(c: Config, s: State, i: nat)
    requires Sized(c, s) && i < |s.sessions|
    ensures s.sessions[i].pc.Storing? ==> SameRequests(s, StoreStep(c, s, i))
    ensures s.sessions[i].pc.Completing? ==> SameRequests(s, CompleteStep(s, i))
    ensures s.sessions[i].pc.Posting? ==> SameRequests(s, PostStep(s, i))
    ensures s.sessions[i].pc.Responding? ==> SameRequests(s, RespondStep(s, i))
    ensures s.sessions[i].pc.Awaiting? && s.sessions[i].inbox != [] ==> SameRequests(s, DeliverStep(s, i))
  {
  }

  lemma OthersKeepRequests(c: Config, s: State, i: nat, rendered: string)
    requires Sized(c, s) && i < |s.sessions| && CanAdvance(c, s.sessions[i]) && OtherPlace(s.sessions[i].pc)
    ensures SameRequests(s, AdvanceStep(c, s, i, rendered))
  {
    CountersKeepRequests(s, i);
    FetchKeepsRequests(c, s, i);
    EndKeepsRequests(c, s, i);
  }

  lemma OthersStayAway(c: Config, s: State, i: nat, rendered: string)
    requires Sized(c, s) && i < |s.sessions| && CanAdvance(c, s.sessions[i]) && OtherPlace(s.sessions[i].pc)
    ensures OnlyOne(s, AdvanceStep(c, s, i, rendered), i) && Late(AdvanceStep(c, s, i, rendered).sessions[i]).None?
  {
    var t := AdvanceStep(c, s, i, rendered);
    AdvanceCounts(c, s, i, rendered);
    OthersKeepRequests(c, s, i, rendered);
    forall j | 0 <= j < |s.sessions| && j != i ensures Late(t.sessions[j]) == Late(s.sessions[j]) {
      assert Pcs(t.sessions)[j] == Pcs(s.sessions)[j];
    }
  }

  // ---------- Flights and late sessions together ----------

  function Started(action: Option<FP.Action>, key: string): nat {
    if action.Some? && action.value.LeadAction? && action.value.key == key then 1 else 0
  }

  lemma OwnersFollow(t: FP.Table, action: Option<FP.Action>, u: FP.Table, key: string)
    requires FR.Follows(t, action, u)
    ensures OwnedFor(u.owners, key) == OwnedFor(t.owners, key) + Started(action, key)
  {
    if action.Some? && action.value.LeadAction? {
      assert u.owners[..|t.owners|] == t.owners;
    }
  }

  lemma FlightsMove(c: Config, s: State, a: Action, key: string)
    requires Inv(c, s) && Enabled(c, s, a)
    ensures FlightsFor(Apply(c, s, a), key) == FlightsFor(s, key) + Started(FR.FlightAction(s, a), key)
  {
    FR.FlightsStep(c, s, a);
    OwnersFollow(TableOf(s), FR.FlightAction(s, a), TableOf(Apply(c, s, a)), key);
  }

  /** The session of an action, and what becomes of its lateness. */
  lemma LateStep(c: Config, s: State, i: nat, rendered: string, key: string)
    requires Sized(c, s) && i < |s.sessions| && CanAdvance(c, s.sessions[i])
    requires Lru.Has(s.cache, key) && Lru.Has(AdvanceStep(c, s, i, rendered).cache, key)
    ensures var x := s.sessions[i];
            LateSessions(AdvanceStep(c, s, i, rendered), key)
            == LateSessions(s, key) - One(x.pc.Joining? && x.request.target == key)
  {
    var x, t := s.sessions[i], AdvanceStep(c, s, i, rendered);
    match x.pc {
      case Dispatching =>
        DispatchTouchesOne(s, i, rendered);
        LookupOfHeldKey(s, i, rendered, key);
      case MissFound(_) => MissStaysLate(s, i);
      case Joining(_) => JoinIsLateNoMore(s, i);
      case _ => OthersStayAway(c, s, i, rendered);
    }
    LateMoves(s, t, i, key);
  }

  /** Steps other than a session's own leave every session as late as it was. */
  lemma ElseStays(c: Config, s: State, a: Action, key: string)
    requires Enabled(c, s, a) && !a.Advance?
    ensures LateSessions(Apply(c, s, a), key) == LateSessions(s, key)
  {
    var t := Apply(c, s, a);
    match a
    case AcceptSession =>
      assert AllLate(t.sessions) == AllLate(s.sessions) + [None];
      TotalAppend(AllLate(s.sessions), None, Is(key));
    case Tick(_) =>
    case SetHealth(_, _) =>
    case ReadRequest(i, _) => LateMoves(s, t, i, key);
    case ReadFails(i) => LateMoves(s, t, i, key);
    case UpstreamEvent(i, e) => LateMoves(s, t, i, key);
    case WriteEnds(i, _) => LateMoves(s, t, i, key);
  }

  /** While the key is held, a flight starts for it only at the expense of a late session. */
  lemma StepTrades(c: Config, s: State, a: Action, key: string)
    requires Inv(c, s) && Enabled(c, s, a) && Lru.Has(s.cache, key) && Lru.Has(Apply(c, s, a).cache, key)
    ensures FlightsFor(Apply(c, s, a), key) + LateSessions(Apply(c, s, a), key) <= FlightsFor(s, key) + LateSessions(s, key)
  {
    FlightsMove(c, s, a, key);
    if a.Advance? {
      LateStep(c, s, a.session, a.rendered, key);
    } else {
      ElseStays(c, s, a, key);
    }
  }

  /** The cache holds the key at every point of a run. */
  ghost predicate HeldThroughout(c: Config, s: State, actions: seq<Action>, key: string) {
    forall n :: 0 <= n <= |actions| ==> Lru.Has(After(c, s, actions[..n]).cache, key)
  }

  lemma {:induction false} RunTrades(c: Config, s: State, actions: seq<Action>, key: string)
    requires Inv(c, s) && Laws(c, s) && Legal(c, s, actions) && HeldThroughout(c, s, actions, key)
    ensures FlightsFor(After(c, s, actions), key) + LateSessions(After(c, s, actions), key)
            <= FlightsFor(s, key) + LateSessions(s, key)
  {
    if actions != [] {
      var n := |actions| - 1;
      var before := actions[..n];
      HeldBefore(c, s, actions, key);
      RunTrades(c, s, before, key);
      assert Inv(c, After(c, s, before)) by { RunInv(c, s, before); }
      LastIsApply(c, s, actions);
      StepTrades(c, After(c, s, before), actions[n], key);
    }
  }

  lemma HeldBefore(c: Config, s: State, actions: seq<Action>, key: string)
    requires actions != [] && HeldThroughout(c, s, actions, key)
    ensures HeldThroughout(c, s, actions[..|actions| - 1], key)
    ensures Lru.Has(After(c, s, actions[..|actions| - 1]).cache, key) && Lru.Has(After(c, s, actions).cache, key)
  {
    var before := actions[..|actions| - 1];
    assert actions[..|actions|] == actions && before[..|before|] == before;
    forall n | 0 <= n <= |before| ensures Lru.Has(After(c, s, before[..n]).cache, key) {
      assert before[..n] == actions[..n];
    }
  }

  /**
   * In every run that starts in a reachable state, such as the one after a store, and throughout which the cache holds a
   * key, at most as many flights start for it as there were sessions that had missed it and not joined yet.
   */
  lemma LateFlightsBounded(c: Config, s: State, actions: seq<Action>, key: string)
    requires Reachable(c, s) && Legal(c, s, actions) && HeldThroughout(c, s, actions, key)
    ensures FlightsFor(After(c, s, actions), key) <= FlightsFor(s, key) + LateSessions(s, key)
  {
    ReachableInv(c, s);
    RunTrades(c, s, actions, key);
    TotalSign(AllLate(After(c, s, actions).sessions), Is(key));
  }
}
