/** Active health checks: rounds of probes in which a timer, a lookup and a connect race to decide each backend. */
module HealthMonitoring {
  import opened Http
  import Metrics
  import Pool = UpstreamPools

  // ---------- One check ----------

  /** The handler of a timer wait: not pending, pending, or pending after a cancellation. */
  datatype Wait = Idle | Armed | Cancelled

  datatype Check = Check(
    completed: bool, timer: Wait, resolving: bool, connecting: bool, verdict: Option<bool>)

  /** Handlers that run for a check, each with whether it reports an error. */
  datatype CheckEvent = TimerEvent(error: bool) | ResolveEvent(error: bool) | ConnectEvent(error: bool)

  const NEW_CHECK := Check(false, Armed, true, false, None)

  /** A wait fails only if cancelled, but a cancelled one may have expired already and still succeed. */
  predicate CanHappen(c: Check, e: CheckEvent) {
    match e
    case TimerEvent(error) => c.timer == Cancelled || (c.timer == Armed && !error)
    case ResolveEvent(_) => c.resolving
    case ConnectEvent(_) => c.connecting
  }

  function Complete(c: Check, healthy: bool): Check {
    if c.completed then c
    else c.(completed := true, verdict := Some(healthy), timer := if c.timer == Armed then Cancelled else c.timer)
  }

  function StepCheck(c: Check, e: CheckEvent): Check {
    match e
    case TimerEvent(error) =>
      var d := c.(timer := Idle);
      if error then d else Complete(d, false)
    case ResolveEvent(error) =>
      var d := c.(resolving := false);
      if d.completed then d
      else if error then Complete(d, false)
      else d.(connecting := true)
    case ConnectEvent(error) =>
      Complete(c.(connecting := false), !error)
  }

  /** The step calls the completion handler. */
  predicate Finishes(c: Check, e: CheckEvent) {
    !c.completed && StepCheck(c, e).completed
  }

  /** An undecided check has its timer armed and exactly one of lookup and connect in progress. */
  ghost predicate CheckOk(c: Check) {
    && (!c.completed ==> c.timer == Armed && c.resolving != c.connecting && c.verdict.None?)
    && (c.completed ==> c.timer != Armed && c.verdict.Some? && !(c.resolving && c.connecting))
  }

  lemma StepKeepsCheckOk(c: Check, e: CheckEvent)
    requires CheckOk(c) && CanHappen(c, e)
    ensures CheckOk(StepCheck(c, e))
    ensures c.completed ==> StepCheck(c, e).completed && StepCheck(c, e).verdict == c.verdict
  {
  }

  ghost predicate LegalEvents(events: seq<CheckEvent>) {
    events == [] ||
    (LegalEvents(events[..|events| - 1]) && CanHappen(RunCheck(events[..|events| - 1]), events[|events| - 1]))
  }

  ghost function RunCheck(events: seq<CheckEvent>): Check {
    if events == [] then NEW_CHECK else StepCheck(RunCheck(events[..|events| - 1]), events[|events| - 1])
  }

  /** How often a run calls the completion handler. */
  ghost function Completions(events: seq<CheckEvent>): nat {
    if events == [] then 0
    else
      var n := |events| - 1;
      Completions(events[..n]) + if Finishes(RunCheck(events[..n]), events[n]) then 1 else 0
  }

  ghost function PendingHandlers(c: Check): nat {
    (if c.timer == Idle then 0 else 1) + (if c.resolving then 2 else 0) + (if c.connecting then 1 else 0)
  }

  /**
   * In every order of timeout, lookup and connect: at most three handlers run, the completion handler is called at
   * most once, and it has been called by the time nothing is pending.
   */
  lemma {:induction false} CheckCompletesOnce(events: seq<CheckEvent>)
    requires LegalEvents(events)
    ensures var c := RunCheck(events);
            && CheckOk(c)
            && |events| + PendingHandlers(c) <= 3
            && Completions(events) == (if c.completed then 1 else 0)
            && (PendingHandlers(c) == 0 ==> Completions(events) == 1)
  {
    if events != [] {
      var n := |events| - 1;
      CheckCompletesOnce(events[..n]);
      StepKeepsCheckOk(RunCheck(events[..n]), events[n]);
    }
  }

  ghost predicate LookedUp(events: seq<CheckEvent>) {
    exists j :: 0 <= j < |events| && events[j] == ResolveEvent(false)
  }

  /** A connect ends only after a lookup that succeeded. */
  lemma {:induction false} ConnectFollowsLookup(events: seq<CheckEvent>, k: nat)
    requires LegalEvents(events) && k < |events| && events[k].ConnectEvent?
    ensures LookedUp(events[..k])
  {
    var n := |events| - 1;
    if k < n {
      ConnectFollowsLookup(events[..n], k);
      assert events[..n][..k] == events[..k];
    } else {
      ConnectingLookedUp(events[..n]);
    }
  }

  lemma {:induction false} ConnectingLookedUp(events: seq<CheckEvent>)
    requires LegalEvents(events)
    ensures RunCheck(events).connecting ==> LookedUp(events)
  {
    if events != [] {
      var n := |events| - 1;
      ConnectingLookedUp(events[..n]);
      if RunCheck(events[..n]).connecting {
        var j :| 0 <= j < n && events[..n][j] == ResolveEvent(false);
        assert events[j] == ResolveEvent(false);
      } else if RunCheck(events).connecting {
        assert events[n] == ResolveEvent(false);
      }
    }
  }

  /** Events that decide an undecided check: the timeout, a failed lookup, or the end of the connect. */
  predicate Decides(e: CheckEvent) {
    match e
    case TimerEvent(error) => !error
    case ResolveEvent(error) => error
    case ConnectEvent(_) => true
  }

  ghost predicate FirstToDecide(events: seq<CheckEvent>, k: nat) {
    k < |events| && Decides(events[k]) && forall j :: 0 <= j < k ==> !Decides(events[j])
  }

  /** The first such event decides, whatever follows: healthy exactly if it is a successful connect. */
  lemma {:induction false} FirstEventDecides(events: seq<CheckEvent>)
    requires LegalEvents(events)
    ensures RunCheck(events).completed <==> exists k: nat :: FirstToDecide(events, k)
    ensures forall k: nat :: FirstToDecide(events, k) ==>
              RunCheck(events).verdict == Some(events[k] == ConnectEvent(false))
  {
    if events != [] {
      var n := |events| - 1;
      var before := events[..n];
      FirstEventDecides(before);
      CheckCompletesOnce(before);
      assert forall k: nat :: k < n ==> (FirstToDecide(events, k) <==> FirstToDecide(before, k));
      if !RunCheck(before).completed {
        assert NoneDecides(before) by { FirstOrNone(before); }
        assert FirstToDecide(events, n) <==> Decides(events[n]);
      } else {
        var k: nat :| FirstToDecide(before, k);
        assert FirstToDecide(events, k);
      }
    }
  }

  ghost predicate NoneDecides(events: seq<CheckEvent>) {
    forall j :: 0 <= j < |events| ==> !Decides(events[j])
  }

  lemma {:induction false} FirstOrNone(events: seq<CheckEvent>)
    ensures NoneDecides(events) || exists k: nat :: FirstToDecide(events, k)
  {
    if events != [] {
      var n := |events| - 1;
      FirstOrNone(events[..n]);
      if k: nat :| FirstToDecide(events[..n], k) {
        assert FirstToDecide(events, k);
      } else if Decides(events[n]) {
        assert forall j :: 0 <= j < n ==> events[..n][j] == events[j];
        assert FirstToDecide(events, n);
      }
    }
  }

  class HealthCheck {
    const pool: Pool.UpstreamPool
    const metrics: Metrics.MetricsRegistry?
    const index: nat
    var completed: bool
    var timer: Wait
    var resolving: bool
    var connecting: bool
    ghost var verdict: Option<bool>

    ghost function View(): Check
      reads this
    {
      Check(completed, timer, resolving, connecting, verdict)
    }

    ghost predicate Ready()
      reads this, pool, metrics
    {
      pool.Valid() && (metrics != null ==> metrics.Valid())
    }

    /** The registry, if there is one, has counted a change of flag exactly if there was one. */
    twostate predicate Counted()
      reads this, pool, metrics
    {
      metrics != null ==>
        && metrics.tally == old(metrics.tally)
        && metrics.flips == old(metrics.flips) + if pool.View() == old(pool.View()) then 0 else 1
    }

    /** The pool is told the verdict for this check's own backend when the check finishes, and nothing otherwise. */
    ghost predicate Told(before: Pool.PoolState, after: Pool.PoolState, finished: bool)
      reads this
    {
      if finished then verdict.Some? && after == Pool.SetHealthyState(before, index, verdict.value) else after == before
    }

    /** Construction followed by `run`: the timer and the lookup start together. */
    constructor (pool: Pool.UpstreamPool, metrics: Metrics.MetricsRegistry?, index: nat)
      ensures this.pool == pool && this.metrics == metrics && this.index == index && View() == NEW_CHECK
    {
      this.pool, this.metrics, this.index := pool, metrics, index;
      completed, timer, resolving, connecting, verdict := false, Armed, true, false, None;
    }

    method OnTimer(error: bool) returns (finished: bool)
      requires Ready() && CanHappen(View(), TimerEvent(error))
      modifies this, pool`backends, metrics
      ensures View() == StepCheck(old(View()), TimerEvent(error)) && finished == Finishes(old(View()), TimerEvent(error))
      ensures Ready() && Told(old(pool.View()), pool.View(), finished) && Counted()
    {
      timer := Idle;
      finished := false;
      if !error {
        finished := Decide(false);
      }
    }

    method OnResolve(error: bool) returns (finished: bool)
      requires Ready() && CanHappen(View(), ResolveEvent(error))
      modifies this, pool`backends, metrics
      ensures View() == StepCheck(old(View()), ResolveEvent(error)) && finished == Finishes(old(View()), ResolveEvent(error))
      ensures Ready() && Told(old(pool.View()), pool.View(), finished) && Counted()
    {
      resolving := false;
      finished := false;
      if completed {
        return;
      }
      if error {
        finished := Decide(false);
        return;
      }
      connecting := true;
    }

    method OnConnect(error: bool) returns (finished: bool)
      requires Ready() && CanHappen(View(), ConnectEvent(error))
      modifies this, pool`backends, metrics
      ensures View() == StepCheck(old(View()), ConnectEvent(error)) && finished == Finishes(old(View()), ConnectEvent(error))
      ensures Ready() && Told(old(pool.View()), pool.View(), finished) && Counted()
    {
      connecting := false;
      finished := Decide(!error);
    }

    /** `complete`; `finished` says that the completion handler is called. */
    method Decide(healthy: bool) returns (finished: bool)
      requires Ready()
      modifies this, pool`backends, metrics
      ensures View() == Complete(old(View()), healthy) && finished == !old(completed)
      ensures Ready() && Told(old(pool.View()), pool.View(), finished) && Counted()
    {
      if completed {
        return false;
      }
      completed := true;
      verdict := Some(healthy);
      if timer == Armed {
        timer := Cancelled;
      }
      var changed := pool.SetHealthy(index, healthy);
      if changed == Some(true) && metrics != null {
        metrics.RecordHealthTransition();
      }
      return true;
    }
  }

  // ---------- The monitor ----------

  /** The monitor's own fields: `armed` and `cancelled` are its pending timer waits. */
  datatype Core = Core(stopped: bool, remaining: nat, armed: bool, cancelled: nat)

  function Schedule(m: Core): Core {
    if m.stopped then m
    else m.(armed := true, cancelled := if m.armed then m.cancelled + 1 else m.cancelled)
  }

  function Stop(m: Core): Core {
    m.(stopped := true, armed := false, cancelled := if m.armed then m.cancelled + 1 else m.cancelled)
  }

  function CheckDone(m: Core): Core {
    var d := if m.remaining > 0 then m.(remaining := m.remaining - 1) else m;
    if d.remaining == 0 && !d.stopped then Schedule(d) else d
  }

  class UpstreamHealthMonitor {
    const pool: Pool.UpstreamPool
    const metrics: Metrics.MetricsRegistry?
    var stopped: bool
    var checksRemaining: nat
    var armed: bool
    var cancelled: nat

    ghost function View(): Core
      reads this
    {
      Core(stopped, checksRemaining, armed, cancelled)
    }

    constructor (pool: Pool.UpstreamPool, metrics: Metrics.MetricsRegistry?)
      ensures this.pool == pool && this.metrics == metrics && View() == Core(false, 0, false, 0)
    {
      this.pool, this.metrics := pool, metrics;
      stopped, checksRemaining, armed, cancelled := false, 0, false, 0;
    }

    /** `expires_after` cancels a wait already pending. */
    method ScheduleNextCheck()
      modifies this
      ensures View() == Schedule(old(View()))
    {
      if stopped {
        return;
      }
      if armed {
        cancelled := cancelled + 1;
      }
      armed := true;
    }

    method StopMonitor()
      modifies this
      ensures View() == Stop(old(View()))
    {
      stopped := true;
      if armed {
        cancelled := cancelled + 1;
      }
      armed := false;
    }

    /** One new check per backend, unless stopped. */
    method RunChecks() returns (launched: seq<HealthCheck>)
      modifies this
      ensures View() == if old(stopped) then old(View()) else old(View()).(remaining := |pool.backends|)
      ensures |launched| == if old(stopped) then 0 else |pool.backends|
      ensures forall i :: 0 <= i < |launched| ==>
                && fresh(launched[i]) && launched[i].pool == pool && launched[i].metrics == metrics
                && launched[i].index == i && launched[i].View() == NEW_CHECK
    {
      launched := [];
      if stopped {
        return;
      }
      checksRemaining := |pool.backends|;
      var index := 0;
      while index < checksRemaining
        invariant index <= checksRemaining && |launched| == index
        invariant View() == old(View()).(remaining := |pool.backends|)
        invariant forall i :: 0 <= i < |launched| ==>
                    && fresh(launched[i]) && launched[i].pool == pool && launched[i].metrics == metrics
                    && launched[i].index == i && launched[i].View() == NEW_CHECK
      {
        var check := new HealthCheck(pool, metrics, index);
        launched := launched + [check];
        index := index + 1;
      }
    }

    method OnCheckComplete()
      modifies this
      ensures View() == CheckDone(old(View()))
    {
      if checksRemaining > 0 {
        checksRemaining := checksRemaining - 1;
      }
      if checksRemaining == 0 && !stopped {
        ScheduleNextCheck();
      }
    }
  }

  // ---------- The monitor with its checks ----------

  /** `rounds[r][i]` is the check of backend `i` in round `r`; `health` is the pool's flags, `transitions` their counter. */
  datatype System = System(
    size: nat, started: bool, core: Core, rounds: seq<seq<Check>>, health: seq<bool>, transitions: nat)

  datatype Action =
    | StartAction
    | StopAction
    | WaitEnds
    | CancelledWaitEnds(error: bool)
    | CheckAction(round: nat, backend: nat, event: CheckEvent)

  function InitSystem(size: nat): System {
    System(size, false, Core(false, 0, false, 0), [], seq(size, i => true), 0)
  }

  /** `start` is called once; everything else happens when its handler is pending. */
  predicate Enabled(s: System, a: Action) {
    match a
    case StartAction => !s.started
    case StopAction => true
    case WaitEnds => s.core.armed
    case CancelledWaitEnds(_) => s.core.cancelled > 0
    case CheckAction(r, i, e) => r < |s.rounds| && i < |s.rounds[r]| && CanHappen(s.rounds[r][i], e)
  }

  function LaunchRound(s: System): System {
    if s.core.stopped then s
    else s.(core := s.core.(remaining := s.size), rounds := s.rounds + [seq(s.size, i => NEW_CHECK)])
  }

  function Apply(s: System, a: Action): System
    requires Enabled(s, a)
  {
    match a
    case StartAction => s.(started := true, core := Schedule(s.core))
    case StopAction => s.(core := Stop(s.core))
    case WaitEnds => LaunchRound(s.(core := s.core.(armed := false)))
    case CancelledWaitEnds(error) =>
      var t := s.(core := s.core.(cancelled := s.core.cancelled - 1));
      if error then t else LaunchRound(t)
    case CheckAction(r, i, e) =>
      var c := s.rounds[r][i];
      var t := s.(rounds := s.rounds[r := s.rounds[r][i := StepCheck(c, e)]]);
      if Finishes(c, e) && StepCheck(c, e).verdict.Some? then
        var healthy := StepCheck(c, e).verdict.value;
        t.(core := CheckDone(s.core), health := Pool.SetHealthyState(Pool.PoolState(s.health, 0), i, healthy).healthy,
           transitions := if i < |s.health| && s.health[i] != healthy then s.transitions + 1 else s.transitions)
      else t
  }

  /** How many checks of a round are undecided. */
  ghost function Undecided(round: seq<Check>): nat {
    if round == [] then 0 else Undecided(round[..|round| - 1]) + if round[|round| - 1].completed then 0 else 1
  }

  lemma {:induction false} UndecidedUpdate(round: seq<Check>, i: nat, c: Check)
    requires i < |round|
    ensures Undecided(round[i := c])
            == Undecided(round) + (if c.completed then 0 else 1) - (if round[i].completed then 0 else 1)
  {
    var n := |round| - 1;
    var updated := round[i := c];
    if i == n {
      assert updated[..n] == round[..n];
    } else {
      UndecidedUpdate(round[..n], i, c);
      assert updated[..n] == round[..n][i := c];
    }
  }

  lemma {:induction false} UndecidedZero(round: seq<Check>)
    ensures Undecided(round) == 0 <==> forall i :: 0 <= i < |round| ==> round[i].completed
  {
    if round != [] {
      UndecidedZero(round[..|round| - 1]);
    }
  }

  lemma {:induction false} UndecidedNew(n: nat)
    ensures Undecided(seq(n, i => NEW_CHECK)) == n
  {
    if n > 0 {
      UndecidedNew(n - 1);
      assert seq(n, i => NEW_CHECK)[..n - 1] == seq(n - 1, i => NEW_CHECK);
    }
  }

  /** A round has one check per backend, and only the latest has undecided ones. */
  ghost predicate RoundOk(size: nat, rounds: seq<seq<Check>>, r: nat)
    requires r < |rounds|
  {
    && |rounds[r]| == size
    && (forall i :: 0 <= i < size ==> CheckOk(rounds[r][i]))
    && (r < |rounds| - 1 ==> Undecided(rounds[r]) == 0)
  }

  ghost predicate Inv(s: System) {
    && s.size > 0 && |s.health| == s.size
    && (forall r :: 0 <= r < |s.rounds| ==> RoundOk(s.size, s.rounds, r))
    && s.core.remaining == (if s.rounds == [] then 0 else Undecided(s.rounds[|s.rounds| - 1]))
    && (!s.started ==> s.rounds == [] && !s.core.armed && s.core.cancelled == 0)
    && (s.core.stopped ==> !s.core.armed)
    && (!s.core.stopped ==> s.core.cancelled == 0)
    && (s.started && !s.core.stopped ==> (s.core.armed <==> s.core.remaining == 0))
  }

  /** What the latest decided check said of a backend; a backend starts healthy. */
  ghost function LatestVerdict(rounds: seq<seq<Check>>, i: nat): bool {
    if rounds == [] then true
    else
      var last := rounds[|rounds| - 1];
      if i < |last| && last[i].verdict.Some? then last[i].verdict.value
      else LatestVerdict(rounds[..|rounds| - 1], i)
  }

  ghost predicate HealthInv(s: System) {
    forall i :: 0 <= i < |s.health| ==> s.health[i] == LatestVerdict(s.rounds, i)
  }

  lemma LaunchKeepsInv(s: System)
    requires s.size > 0 && |s.health| == s.size && s.started
    requires forall r :: 0 <= r < |s.rounds| ==> RoundOk(s.size, s.rounds, r)
    requires s.core.remaining == (if s.rounds == [] then 0 else Undecided(s.rounds[|s.rounds| - 1]))
    requires !s.core.armed
    requires !s.core.stopped ==> s.core.cancelled == 0 && s.core.remaining == 0
    ensures Inv(LaunchRound(s))
  {
    if !s.core.stopped {
      var t := LaunchRound(s);
      UndecidedNew(s.size);
      forall r | 0 <= r < |t.rounds| ensures RoundOk(t.size, t.rounds, r) {
        if r < |s.rounds| {
          assert RoundOk(s.size, s.rounds, r) && t.rounds[r] == s.rounds[r];
        }
      }
    }
  }

  lemma CheckKeepsRounds(s: System, r: nat, i: nat, e: CheckEvent)
    requires Inv(s) && Enabled(s, CheckAction(r, i, e))
    ensures var t := Apply(s, CheckAction(r, i, e));
            && (forall k :: 0 <= k < |t.rounds| ==> RoundOk(t.size, t.rounds, k))
            && t.core.remaining == Undecided(t.rounds[|t.rounds| - 1])
            && (Finishes(s.rounds[r][i], e) ==> r == |s.rounds| - 1 && s.core.remaining > 0)
  {
    var t := Apply(s, CheckAction(r, i, e));
    assert RoundOk(s.size, s.rounds, r);
    var c := s.rounds[r][i];
    StepKeepsCheckOk(c, e);
    UndecidedUpdate(s.rounds[r], i, StepCheck(c, e));
    UndecidedZero(s.rounds[r]);
    forall k | 0 <= k < |t.rounds| ensures RoundOk(t.size, t.rounds, k) {
      assert RoundOk(s.size, s.rounds, k);
    }
  }

  lemma StepKeepsInv(s: System, a: Action)
    requires Inv(s) && Enabled(s, a)
    ensures Inv(Apply(s, a))
  {
    match a
    case StartAction =>
    case StopAction =>
    case WaitEnds => LaunchKeepsInv(s.(core := s.core.(armed := false)));
    case CancelledWaitEnds(error) =>
    case CheckAction(r, i, e) => CheckKeepsRounds(s, r, i, e);
  }

  lemma {:induction false} VerdictUpdate(rounds: seq<seq<Check>>, r: nat, round: seq<Check>, i: nat)
    requires r < |rounds| && |round| == |rounds[r]|
    requires i < |round| ==> round[i].verdict == rounds[r][i].verdict
    ensures LatestVerdict(rounds[r := round], i) == LatestVerdict(rounds, i)
  {
    var n := |rounds| - 1;
    var updated := rounds[r := round];
    if r == n {
      assert updated[..n] == rounds[..n];
    } else {
      assert updated[..n] == rounds[..n][r := round];
      VerdictUpdate(rounds[..n], r, round, i);
    }
  }

  lemma StepKeepsHealth(s: System, a: Action)
    requires Inv(s) && HealthInv(s) && Enabled(s, a)
    ensures HealthInv(Apply(s, a))
  {
    var t := Apply(s, a);
    if a.CheckAction? {
      var r, i, e := a.round, a.backend, a.event;
      var c := s.rounds[r][i];
      assert RoundOk(s.size, s.rounds, r);
      StepKeepsCheckOk(c, e);
      CheckKeepsRounds(s, r, i, e);
      forall k | 0 <= k < |t.health| ensures t.health[k] == LatestVerdict(t.rounds, k) {
        if k != i || !Finishes(c, e) {
          VerdictUpdate(s.rounds, r, t.rounds[r], k);
        }
      }
    } else if |t.rounds| > |s.rounds| {
      assert t.rounds[..|s.rounds|] == s.rounds;
    }
  }

  ghost predicate Legal(size: nat, actions: seq<Action>) {
    actions == [] ||
    (Legal(size, actions[..|actions| - 1])
     && Enabled(RunSystem(size, actions[..|actions| - 1]), actions[|actions| - 1]))
  }

  ghost function RunSystem(size: nat, actions: seq<Action>): System
    decreases |actions|, 1
  {
    if actions == [] then InitSystem(size) else LastStep(size, actions)
  }

  ghost function LastStep(size: nat, actions: seq<Action>): System
    requires actions != []
    decreases |actions|, 0
  {
    var s, a := RunSystem(size, actions[..|actions| - 1]), actions[|actions| - 1];
    if Enabled(s, a) then Apply(s, a) else s
  }

  /**
   * In every run: `checks_remaining_` is the number of undecided checks, all of them in the latest round; while the
   * monitor runs, either a round is in progress or the next is scheduled and never both; and the pool's flags are the
   * verdicts of the latest decided checks.
   */
  lemma {:induction false} MonitorSafety(size: nat, actions: seq<Action>)
    requires size > 0 && Legal(size, actions)
    ensures Inv(RunSystem(size, actions)) && HealthInv(RunSystem(size, actions))
  {
    if actions != [] {
      var n := |actions| - 1;
      MonitorSafety(size, actions[..n]);
      var s := RunSystem(size, actions[..n]);
      StepKeepsInv(s, actions[n]);
      StepKeepsHealth(s, actions[n]);
    }
  }

  lemma StopIsFinal(s: System, a: Action)
    requires s.core.stopped
    ensures Enabled(s, a) ==> Apply(s, a).core.stopped && |Apply(s, a).rounds| == |s.rounds|
  {
  }

  /** In every run, once the monitor is stopped it stays stopped and no further round starts. */
  lemma {:induction false} NoRoundAfterStop(size: nat, actions: seq<Action>, k: nat)
    requires k <= |actions| && RunSystem(size, actions[..k]).core.stopped
    ensures RunSystem(size, actions).core.stopped
    ensures |RunSystem(size, actions).rounds| == |RunSystem(size, actions[..k]).rounds|
  {
    var n := |actions| - 1;
    if k == |actions| {
      assert actions[..k] == actions;
    } else {
      assert actions[..n][..k] == actions[..k];
      NoRoundAfterStop(size, actions[..n], k);
      StopIsFinal(RunSystem(size, actions[..n]), actions[n]);
    }
  }

  /** A round starts only when every check of all earlier rounds is decided. */
  lemma RoundsDoNotOverlap(s: System, a: Action)
    requires Inv(s) && Enabled(s, a) && |Apply(s, a).rounds| > |s.rounds|
    ensures forall r, i :: 0 <= r < |s.rounds| && 0 <= i < |s.rounds[r]| ==> s.rounds[r][i].completed
  {
    forall r, i | 0 <= r < |s.rounds| && 0 <= i < |s.rounds[r]| ensures s.rounds[r][i].completed {
      assert RoundOk(s.size, s.rounds, r);
      UndecidedZero(s.rounds[r]);
    }
  }

  /** A started monitor that is not stopped always has something pending: its own timer, or the timer of an undecided check. */
  lemma MonitorProgress(s: System) returns (a: Action)
    requires Inv(s) && s.started && !s.core.stopped
    ensures Enabled(s, a) && (a.WaitEnds? || a.CheckAction?)
  {
    if s.core.armed {
      a := WaitEnds;
    } else {
      var r := |s.rounds| - 1;
      assert RoundOk(s.size, s.rounds, r);
      UndecidedZero(s.rounds[r]);
      var i :| 0 <= i < s.size && !s.rounds[r][i].completed;
      a := CheckAction(r, i, TimerEvent(false));
    }
  }

  // ---------- Transitions ----------

  /** In how many steps of a run a flag changes. */
  ghost function FlagChanges(size: nat, actions: seq<Action>): nat {
    if actions == [] then 0
    else
      var before := actions[..|actions| - 1];
      FlagChanges(size, before) + if RunSystem(size, actions).health == RunSystem(size, before).health then 0 else 1
  }

  function Unhealthy(health: seq<bool>): nat {
    if health == [] then 0 else Unhealthy(health[..|health| - 1]) + if health[|health| - 1] then 0 else 1
  }

  lemma {:induction false} UnhealthyUpdate(health: seq<bool>, i: nat, b: bool)
    requires i < |health|
    ensures Unhealthy(health[i := b]) == Unhealthy(health) + (if b then 0 else 1) - (if health[i] then 0 else 1)
  {
    var n := |health| - 1;
    var updated := health[i := b];
    if i == n {
      assert updated[..n] == health[..n];
    } else {
      UnhealthyUpdate(health[..n], i, b);
      assert updated[..n] == health[..n][i := b];
    }
  }

  lemma {:induction false} AllHealthy(n: nat)
    ensures Unhealthy(seq(n, i => true)) == 0
  {
    if n > 0 {
      AllHealthy(n - 1);
      assert seq(n, i => true)[..n - 1] == seq(n - 1, i => true);
    }
  }

  /** One flag changes and is counted, or none. */
  ghost predicate Flips(s: System, t: System) {
    || (t.health == s.health && t.transitions == s.transitions)
    || (exists i :: 0 <= i < |s.health| && t.health == s.health[i := !s.health[i]] && t.transitions == s.transitions + 1)
  }

  lemma StepFlips(s: System, a: Action)
    requires Enabled(s, a)
    ensures Flips(s, Apply(s, a))
  {
    var t := Apply(s, a);
    if a.CheckAction? && t.transitions != s.transitions {
      assert t.health == s.health[a.backend := !s.health[a.backend]];
    }
  }

  lemma RunFlips(size: nat, actions: seq<Action>)
    requires actions != [] && Legal(size, actions)
    ensures Flips(RunSystem(size, actions[..|actions| - 1]), RunSystem(size, actions))
  {
    var s, a := RunSystem(size, actions[..|actions| - 1]), actions[|actions| - 1];
    assert RunSystem(size, actions) == LastStep(size, actions) == Apply(s, a);
    StepFlips(s, a);
  }

  lemma FlipsTell(s: System, t: System)
    requires Flips(s, t)
    ensures t.transitions == s.transitions + if t.health == s.health then 0 else 1
    ensures (t.transitions + Unhealthy(t.health)) % 2 == (s.transitions + Unhealthy(s.health)) % 2
  {
    if t.transitions != s.transitions {
      var i :| 0 <= i < |s.health| && t.health == s.health[i := !s.health[i]] && t.transitions == s.transitions + 1;
      assert t.health[i] != s.health[i];
      UnhealthyUpdate(s.health, i, !s.health[i]);
    }
  }

  /** In every run the counter is the number of changes. */
  lemma {:induction false} TransitionsCounted(size: nat, actions: seq<Action>)
    requires Legal(size, actions)
    ensures RunSystem(size, actions).transitions == FlagChanges(size, actions)
  {
    if actions != [] {
      var before := actions[..|actions| - 1];
      TransitionsCounted(size, before);
      assert RunSystem(size, actions).transitions
             == RunSystem(size, before).transitions
                + if RunSystem(size, actions).health == RunSystem(size, before).health then 0 else 1 by {
        RunFlips(size, actions);
        FlipsTell(RunSystem(size, before), RunSystem(size, actions));
      }
    }
  }

  predicate Balanced(s: System) {
    (s.transitions + Unhealthy(s.health)) % 2 == 0
  }

  /** And it tells whether an even number of upstreams is marked unhealthy: every change adds or removes one. */
  lemma {:induction false} TransitionsTellParity(size: nat, actions: seq<Action>)
    requires Legal(size, actions)
    ensures Balanced(RunSystem(size, actions))
  {
    if actions == [] {
      AllHealthy(size);
    } else {
      var before := actions[..|actions| - 1];
      TransitionsTellParity(size, before);
      RunFlips(size, actions);
      FlipsTell(RunSystem(size, before), RunSystem(size, actions));
    }
  }
}
