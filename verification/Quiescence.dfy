/** The protocol does not loop and does not get stuck: without new requests it comes to rest, with everything answered. */
module Quiescence {
  import opened Http
  import opened Session
  import opened SessionInvariants
  import FP = FlightProtocol
  import Px = Proxying

  // ---------- How much is left to do ----------

  function StageRank(stage: Stage): nat {
    match stage
    case CountFetch => 13
    case CountUpstream => 12
    case RaiseGauge => 11
  }

  /** One for a waiter to which nothing has been posted. */
  function Unposted(x: Session): nat {
    if x.inbox == [] then 1 else 0
  }

  const MAX_RANK := 19

  function Rank(x: Session): nat {
    match x.pc
    case Reading => 0
    case Counting => MAX_RANK
    case Dispatching => 18
    case HitFound(_, _) => 3
    case MissFound(_) => 17
    case Joining(_) => 16
    case FollowerJoined(_) => 5 + Unposted(x)
    case Awaiting(_) => 3 + Unposted(x)
    case LeaderJoined(_) => 15
    case Selecting(_) => 14
    case Launching(_, _, stage) => StageRank(stage)
    case Fetching(_, _, p) => 6 + Px.Remaining(p)
    case Fetched(_, _, _) => 6
    case Storing(_, _, _) => 5
    case Completing(_, _) => 4
    case Posting(_, _, _) => 3
    case Responding(_, _) => 2
    case Writing => 1
    case Closed => 0
  }

  function TotalRank(sessions: seq<Session>): nat {
    if sessions == [] then 0 else TotalRank(sessions[..|sessions| - 1]) + Rank(sessions[|sessions| - 1])
  }

  function Measure(s: State): nat {
    TotalRank(s.sessions)
  }

  lemma {:induction false} RankUpdate(sessions: seq<Session>, i: nat, x: Session)
    requires i < |sessions|
    ensures TotalRank(sessions[i := x]) == TotalRank(sessions) - Rank(sessions[i]) + Rank(x)
  {
    var n := |sessions| - 1;
    var updated := sessions[i := x];
    if i == n {
      assert updated[..n] == sessions[..n];
    } else {
      RankUpdate(sessions[..n], i, x);
      assert updated[..n] == sessions[..n][i := x];
    }
  }

  // ---------- Every piece of work brings the end nearer ----------

  /** What happens inside once a request is in: handlers, upstream operations, writes. */
  predicate IsWork(a: Action) {
    a.Advance? || a.UpstreamEvent? || a.WriteEnds?
  }

  lemma MoveSinks(s: State, i: nat, t: State)
    requires i < |s.sessions| == |t.sessions| && t.sessions == s.sessions[i := t.sessions[i]]
    requires Rank(t.sessions[i]) < Rank(s.sessions[i])
    ensures Measure(t) < Measure(s)
  {
    RankUpdate(s.sessions, i, t.sessions[i]);
  }

  lemma CountSinks(s: State, i: nat)
    requires i < |s.sessions|
    ensures s.sessions[i].pc.Counting? ==> Measure(CountRequestStep(s, i)) < Measure(s)
    ensures s.sessions[i].pc.HitFound? ==> Measure(CountHitStep(s, i)) < Measure(s)
    ensures s.sessions[i].pc.MissFound? ==> Measure(CountMissStep(s, i)) < Measure(s)
    ensures s.sessions[i].pc.FollowerJoined? ==> Measure(CountFollowerStep(s, i)) < Measure(s)
    ensures s.sessions[i].pc.LeaderJoined? ==> Measure(CountLeaderStep(s, i)) < Measure(s)
  {
    match s.sessions[i].pc
    case Counting => MoveSinks(s, i, CountRequestStep(s, i));
    case HitFound(_, _) => MoveSinks(s, i, CountHitStep(s, i));
    case MissFound(_) => MoveSinks(s, i, CountMissStep(s, i));
    case FollowerJoined(_) => MoveSinks(s, i, CountFollowerStep(s, i));
    case LeaderJoined(_) => MoveSinks(s, i, CountLeaderStep(s, i));
    case _ =>
  }

  lemma EndSinks(c: Config, s: State, i: nat)
    requires ValidConfig(c) && i < |s.sessions|
    ensures s.sessions[i].pc.Fetched? ==> Measure(FetchedStep(s, i)) < Measure(s)
    ensures s.sessions[i].pc.Storing? ==> Measure(StoreStep(c, s, i)) < Measure(s)
    ensures s.sessions[i].pc.Completing? ==> Measure(CompleteStep(s, i)) < Measure(s)
    ensures s.sessions[i].pc.Responding? ==> Measure(RespondStep(s, i)) < Measure(s)
    ensures s.sessions[i].pc.Awaiting? && s.sessions[i].inbox != [] ==> Measure(DeliverStep(s, i)) < Measure(s)
  {
    match s.sessions[i].pc
    case Fetched(_, _, _) => MoveSinks(s, i, FetchedStep(s, i));
    case Storing(_, _, _) => MoveSinks(s, i, StoreStep(c, s, i));
    case Completing(_, _) => MoveSinks(s, i, CompleteStep(s, i));
    case Responding(_, _) => MoveSinks(s, i, RespondStep(s, i));
    case Awaiting(_) =>
      if s.sessions[i].inbox != [] {
        MoveSinks(s, i, DeliverStep(s, i));
      }
    case _ =>
  }

  lemma DispatchSinks(s: State, i: nat, rendered: string)
    requires i < |s.sessions| && s.sessions[i].pc.Dispatching?
    ensures Measure(DispatchStep(s, i, rendered)) < Measure(s)
  {
    MoveSinks(s, i, DispatchStep(s, i, rendered));
  }

  lemma JoinSinks(s: State, i: nat)
    requires i < |s.sessions| && s.sessions[i].pc.Joining?
    ensures Measure(JoinStep(s, i)) < Measure(s)
  {
    MoveSinks(s, i, JoinStep(s, i));
  }

  lemma SelectSinks(c: Config, s: State, i: nat)
    requires Sized(c, s) && i < |s.sessions| && s.sessions[i].pc.Selecting?
    ensures Measure(SelectStep(c, s, i)) < Measure(s)
  {
    MoveSinks(s, i, SelectStep(c, s, i));
  }

  lemma LaunchSinks(c: Config, s: State, i: nat)
    requires Sized(c, s) && i < |s.sessions| && s.sessions[i].pc.Launching?
    requires s.sessions[i].pc.fetch.upstream < |c.endpoints|
    ensures Measure(LaunchStep(c, s, i)) < Measure(s)
  {
    MoveSinks(s, i, LaunchStep(c, s, i));
  }

  /** Posting leaves the leader where it is and brings a waiter nearer. */
  lemma PostSinks(c: Config, s: State, i: nat)
    requires Inv(c, s) && i < |s.sessions| && s.sessions[i].pc.Posting?
    ensures Measure(PostStep(s, i)) < Measure(s)
  {
    if s.sessions[i].pc.waiters == [] {
      MoveSinks(s, i, PostStep(s, i));
    } else {
      assert FP.Inv(TableOf(s));
      NextWaiter(s, i);
      PostOneSinks(s, i);
    }
  }

  lemma NextWaiter(s: State, i: nat)
    requires FP.Inv(TableOf(s)) && i < |s.sessions| && s.sessions[i].pc.Posting? && s.sessions[i].pc.waiters != []
    ensures var w := s.sessions[i].pc.waiters[0];
            w < |s.sessions| && w != i && s.sessions[w].inbox == []
            && (s.sessions[w].pc.FollowerJoined? || s.sessions[w].pc.Awaiting?)
  {
    var f, w := s.sessions[i].pc.flight, s.sessions[i].pc.waiters[0];
    assert FP.PartOk(TableOf(s), i);
    assert FP.WaitsUnposted(TableOf(s), w, f);
    assert |BoxOf(s.sessions[w].inbox)| == |s.sessions[w].inbox|;
  }

  lemma PostOneSinks(s: State, i: nat)
    requires i < |s.sessions| && s.sessions[i].pc.Posting? && s.sessions[i].pc.waiters != []
    requires var w := s.sessions[i].pc.waiters[0];
             w < |s.sessions| && w != i && s.sessions[w].inbox == []
             && (s.sessions[w].pc.FollowerJoined? || s.sessions[w].pc.Awaiting?)
    ensures Measure(PostStep(s, i)) < Measure(s)
  {
    var Posting(f, r, ws) := s.sessions[i].pc;
    var u := At(s, i, Posting(f, r, ws[1..]));
    RankUpdate(s.sessions, i, u.sessions[i]);
    MoveSinks(u, ws[0], PostStep(s, i));
  }

  lemma UpstreamSinks(s: State, i: nat, e: Px.Event)
    requires i < |s.sessions| && s.sessions[i].pc.Fetching? && s.sessions[i].pc.proxy.Pending?
    ensures Measure(UpstreamStep(s, i, e)) < Measure(s)
  {
    Px.EventsShorten(s.sessions[i].pc.proxy, e);
    MoveSinks(s, i, UpstreamStep(s, i, e));
  }

  lemma AdvanceSinks(c: Config, s: State, i: nat, rendered: string)
    requires Inv(c, s) && i < |s.sessions| && CanAdvance(c, s.sessions[i])
    ensures Measure(AdvanceStep(c, s, i, rendered)) < Measure(s)
  {
    CountSinks(s, i);
    EndSinks(c, s, i);
    match s.sessions[i].pc
    case Dispatching => DispatchSinks(s, i, rendered);
    case Joining(_) => JoinSinks(s, i);
    case Selecting(_) => SelectSinks(c, s, i);
    case Launching(_, _, _) => LaunchSinks(c, s, i);
    case Posting(_, _, _) => PostSinks(c, s, i);
    case _ =>
  }

  lemma WorkSinks(c: Config, s: State, a: Action)
    requires Inv(c, s) && Enabled(c, s, a) && IsWork(a)
    ensures Measure(Apply(c, s, a)) < Measure(s)
  {
    match a
    case Advance(i, rendered) => AdvanceSinks(c, s, i, rendered);
    case UpstreamEvent(i, e) => UpstreamSinks(s, i, e);
    case WriteEnds(i, again) => MoveSinks(s, i, Apply(c, s, a));
  }

  lemma OutsideMoves(c: Config, s: State, a: Action)
    requires Enabled(c, s, a) && !IsWork(a)
    ensures Measure(Apply(c, s, a)) == Measure(s) + if a.ReadRequest? then MAX_RANK else 0
  {
    var t := Apply(c, s, a);
    match a
    case AcceptSession => assert t.sessions[..|s.sessions|] == s.sessions;
    case Tick(_) =>
    case SetHealth(_, _) =>
    case ReadRequest(i, q) => RankUpdate(s.sessions, i, t.sessions[i]);
    case ReadFails(i) => RankUpdate(s.sessions, i, t.sessions[i]);
  }

  /** Work strictly lowers the measure, a new request raises it by a constant, nothing else moves it. */
  lemma MeasureMoves(c: Config, s: State, a: Action)
    requires Inv(c, s) && Enabled(c, s, a)
    ensures IsWork(a) ==> Measure(Apply(c, s, a)) < Measure(s)
    ensures a.ReadRequest? ==> Measure(Apply(c, s, a)) == Measure(s) + MAX_RANK
    ensures !IsWork(a) && !a.ReadRequest? ==> Measure(Apply(c, s, a)) == Measure(s)
  {
    if IsWork(a) {
      WorkSinks(c, s, a);
    } else {
      OutsideMoves(c, s, a);
    }
  }

  // ---------- Something can always be done ----------

  /** Every session is between requests. */
  ghost predicate Quiescent(s: State) {
    forall i :: 0 <= i < |s.sessions| ==> s.sessions[i].pc.Reading? || s.sessions[i].pc.Closed?
  }

  /** A session with work in hand that is not waiting on another session can take a step. */
  lemma OwnWork(c: Config, s: State, i: nat) returns (a: Action)
    requires Inv(c, s) && i < |s.sessions| && !s.sessions[i].pc.Reading? && !s.sessions[i].pc.Closed?
    requires s.sessions[i].pc.Awaiting? ==> s.sessions[i].inbox != []
    ensures IsWork(a) && Enabled(c, s, a)
  {
    assert SessionOk(c, s, s.sessions[i]);
    if s.sessions[i].pc.Fetching? {
      a := UpstreamEvent(i, Px.Event(Px.Failed, BadGateway(NO_REQUEST)));
    } else if s.sessions[i].pc.Writing? {
      a := WriteEnds(i, false);
    } else {
      a := Advance(i, "");
    }
  }

  lemma Progress(c: Config, s: State) returns (a: Action)
    requires Inv(c, s) && !Quiescent(s)
    ensures IsWork(a) && Enabled(c, s, a)
  {
    var i :| 0 <= i < |s.sessions| && !s.sessions[i].pc.Reading? && !s.sessions[i].pc.Closed?;
    if s.sessions[i].pc.Awaiting? && s.sessions[i].inbox == [] {
      i := FP.WaiterHasLeader(TableOf(s), i);
    }
    a := OwnWork(c, s, i);
  }
}
