/** Fairness of the rotation over whole runs, while health flags change underneath it. */
module PoolFairness {
  import opened Http
  import opened Collections
  import opened UpstreamPools

  datatype PoolOp = SelectOp | HealthOp(index: nat, healthy: bool)

  function StepPool(p: PoolState, op: PoolOp): (q: PoolState)
    requires ValidPool(p)
    ensures ValidPool(q) && |q.healthy| == |p.healthy|
  {
    match op
    case SelectOp => SelectState(p)
    case HealthOp(index, healthy) => SetHealthyState(p, index, healthy)
  }

  /** The pool after a run. */
  function After(p: PoolState, ops: seq<PoolOp>): (q: PoolState)
    requires ValidPool(p)
    ensures ValidPool(q) && |q.healthy| == |p.healthy|
  {
    if ops == [] then p else StepPool(After(p, ops[..|ops| - 1]), ops[|ops| - 1])
  }

  /** What one operation selects: nothing or one index. */
  function Picked(p: PoolState, op: PoolOp): seq<nat>
    requires ValidPool(p)
  {
    if op.SelectOp? && Choice(p).Some? then [Choice(p).value] else []
  }

  /** The indices a run selects, in order. */
  function Picks(p: PoolState, ops: seq<PoolOp>): seq<nat>
    requires ValidPool(p)
  {
    if ops == [] then []
    else Picks(p, ops[..|ops| - 1]) + Picked(After(p, ops[..|ops| - 1]), ops[|ops| - 1])
  }

  function Selects(ops: seq<PoolOp>): nat {
    if ops == [] then 0 else Selects(ops[..|ops| - 1]) + if ops[|ops| - 1].SelectOp? then 1 else 0
  }

  /** `b` starts healthy and nothing marks it unhealthy. */
  ghost predicate StaysHealthy(p: PoolState, ops: seq<PoolOp>, b: nat) {
    && b < |p.healthy| && p.healthy[b]
    && forall i :: 0 <= i < |ops| && ops[i].HealthOp? && ops[i].index == b ==> ops[i].healthy
  }

  lemma {:induction false} StillHealthy(p: PoolState, ops: seq<PoolOp>, b: nat)
    requires ValidPool(p) && StaysHealthy(p, ops, b)
    ensures After(p, ops).healthy[b]
  {
    if ops != [] {
      StillHealthy(p, ops[..|ops| - 1], b);
    }
  }

  function To(p: PoolState, b: nat): nat
    requires ValidPool(p) && b < |p.healthy|
  {
    Distance(|p.healthy|, p.next, b)
  }

  /** Selecting `c` brings every index beyond it nearer by the same amount and sends `c` to the far end. */
  lemma SelectMoves(p: PoolState, b: nat)
    requires ValidPool(p) && Choice(p).Some? && b < |p.healthy|
    ensures var c := Choice(p).value;
            && To(SelectState(p), c) == |p.healthy| - 1
            && (To(p, c) < To(p, b) ==> To(SelectState(p), b) == To(p, b) - To(p, c) - 1)
  {
  }

  /** One operation that does not select the healthy index `b` leaves it no farther, and a selection brings it nearer. */
  lemma StepApproaches(p: PoolState, op: PoolOp, b: nat)
    requires ValidPool(p) && b < |p.healthy| && p.healthy[b] && b !in Picked(p, op)
    ensures To(StepPool(p, op), b) + (if op.SelectOp? then 1 else 0) <= To(p, b)
  {
    if op.SelectOp? {
      ChoiceIsNearest(p);
      SelectMoves(p, b);
    }
  }

  lemma {:induction false} Approaches(p: PoolState, ops: seq<PoolOp>, b: nat)
    requires ValidPool(p) && StaysHealthy(p, ops, b) && b !in Picks(p, ops)
    ensures To(After(p, ops), b) + Selects(ops) <= To(p, b)
  {
    if ops != [] {
      var before := ops[..|ops| - 1];
      Approaches(p, before, b);
      StillHealthy(p, before, b);
      StepApproaches(After(p, before), ops[|ops| - 1], b);
    }
  }

  /** In any run with as many selections as backends, a backend that stays healthy is selected. */
  lemma ChosenWithinPoolSize(p: PoolState, ops: seq<PoolOp>, b: nat)
    requires ValidPool(p) && StaysHealthy(p, ops, b) && Selects(ops) >= |p.healthy|
    ensures b in Picks(p, ops)
  {
    if b !in Picks(p, ops) {
      Approaches(p, ops, b);
    }
  }

  /** A nearer healthy index is never overtaken. */
  lemma StepKeepsOrder(p: PoolState, op: PoolOp, b: nat, c: nat)
    requires ValidPool(p) && b < |p.healthy| && c < |p.healthy| && p.healthy[b]
    requires To(p, b) < To(p, c) && b !in Picked(p, op)
    ensures c !in Picked(p, op) && To(StepPool(p, op), b) < To(StepPool(p, op), c)
  {
    if op.SelectOp? {
      ChoiceIsNearest(p);
      SelectMoves(p, b);
      SelectMoves(p, c);
    }
  }

  lemma {:induction false} OrderKept(p: PoolState, ops: seq<PoolOp>, b: nat, c: nat)
    requires ValidPool(p) && StaysHealthy(p, ops, b) && c < |p.healthy|
    requires To(p, b) < To(p, c) && b !in Picks(p, ops)
    ensures c !in Picks(p, ops) && To(After(p, ops), b) < To(After(p, ops), c)
  {
    if ops != [] {
      var before := ops[..|ops| - 1];
      OrderKept(p, before, b, c);
      StillHealthy(p, before, b);
      StepKeepsOrder(After(p, before), ops[|ops| - 1], b, c);
    }
  }

  /**
   * Whatever happens to the health of others: between a selection of `c` and the next one, a backend that stays
   * healthy is itself selected. Here `p` is the pool at the first selection and `ops` what comes between.
   */
  lemma NoOvertaking(p: PoolState, ops: seq<PoolOp>, b: nat, c: nat)
    requires ValidPool(p) && b != c && Choice(p) == Some(c)
    requires StaysHealthy(SelectState(p), ops, b)
    requires c in Picks(SelectState(p), ops + [SelectOp])
    ensures b in Picks(SelectState(p), ops)
  {
    var q := SelectState(p);
    assert (ops + [SelectOp])[..|ops|] == ops;
    if b !in Picks(q, ops) {
      SelectMoves(p, c);
      assert To(q, b) < To(q, c);
      OrderKept(q, ops, b, c);
      StillHealthy(q, ops, b);
      var r := After(q, ops);
      ChoiceIsNearest(r);
      assert false;
    }
  }

  // ---------- Equal shares ----------

  function Share(picks: seq<nat>, b: nat): nat {
    multiset(picks)[b]
  }

  /** Who is nearer tells the whole difference between two shares. */
  ghost predicate SharesTell(start: PoolState, now: PoolState, picks: seq<nat>, b: nat, c: nat)
    requires ValidPool(start) && ValidPool(now) && |now.healthy| == |start.healthy|
    requires b < |start.healthy| && c < |start.healthy|
  {
    Share(picks, b) - Share(picks, c)
    == (if To(start, b) < To(start, c) then 1 else 0) - (if To(now, b) < To(now, c) then 1 else 0)
  }

  lemma StepShares(start: PoolState, now: PoolState, picks: seq<nat>, op: PoolOp, b: nat, c: nat)
    requires ValidPool(start) && ValidPool(now) && |now.healthy| == |start.healthy|
    requires b < |start.healthy| && c < |start.healthy| && b != c && now.healthy[b] && now.healthy[c]
    requires SharesTell(start, now, picks, b, c)
    ensures SharesTell(start, StepPool(now, op), picks + Picked(now, op), b, c)
  {
    assert To(now, b) != To(now, c);
    if op.SelectOp? {
      ChoiceIsNearest(now);
      SelectMoves(now, b);
      SelectMoves(now, c);
      assert multiset(picks + [Choice(now).value]) == multiset(picks) + multiset{Choice(now).value};
    } else {
      assert picks + Picked(now, op) == picks;
    }
  }

  lemma {:induction false} SharesAlways(p: PoolState, ops: seq<PoolOp>, b: nat, c: nat)
    requires ValidPool(p) && b != c && StaysHealthy(p, ops, b) && StaysHealthy(p, ops, c)
    ensures SharesTell(p, After(p, ops), Picks(p, ops), b, c)
  {
    if ops != [] {
      var before := ops[..|ops| - 1];
      SharesAlways(p, before, b, c);
      StillHealthy(p, before, b);
      StillHealthy(p, before, c);
      StepShares(p, After(p, before), Picks(p, before), ops[|ops| - 1], b, c);
    }
  }

  lemma {:induction false} AfterSplits(p: PoolState, first: seq<PoolOp>, second: seq<PoolOp>)
    requires ValidPool(p)
    ensures After(p, first + second) == After(After(p, first), second)
  {
    if second == [] {
      assert first + second == first;
    } else {
      var n, both := |second| - 1, first + second;
      AfterSplits(p, first, second[..n]);
      assert both[..|both| - 1] == first + second[..n] && both[|both| - 1] == second[n];
    }
  }

  /** What a run selects, one of its operations selected. */
  lemma {:induction false} PickHasOp(p: PoolState, ops: seq<PoolOp>, b: nat) returns (k: nat)
    requires ValidPool(p) && b in Picks(p, ops)
    ensures k < |ops| && ops[k].SelectOp? && Choice(After(p, ops[..k])) == Some(b)
  {
    var n := |ops| - 1;
    if b in Picked(After(p, ops[..n]), ops[n]) {
      k := n;
    } else {
      k := PickHasOp(p, ops[..n], b);
      assert ops[..n][..k] == ops[..k];
    }
  }

  /** After any run, a run with enough selections has an operation that selects a backend which stays healthy. */
  lemma HealthyHasOp(p: PoolState, first: seq<PoolOp>, rest: seq<PoolOp>, b: nat) returns (k: nat)
    requires ValidPool(p) && StaysHealthy(After(p, first), rest, b) && Selects(rest) >= |p.healthy|
    ensures k < |rest| && rest[k].SelectOp? && Choice(After(p, first + rest[..k])) == Some(b)
  {
    ChosenWithinPoolSize(After(p, first), rest, b);
    k := PickHasOp(After(p, first), rest, b);
    AfterSplits(p, first, rest[..k]);
  }

  /** Two backends that stay healthy are selected equally often, to within one, in every run. */
  lemma EqualShares(p: PoolState, ops: seq<PoolOp>, b: nat, c: nat)
    requires ValidPool(p) && StaysHealthy(p, ops, b) && StaysHealthy(p, ops, c)
    ensures -1 <= Share(Picks(p, ops), b) - Share(Picks(p, ops), c) <= 1
  {
    if b != c {
      SharesAlways(p, ops, b, c);
    }
  }

  // ---------- Fixed health ----------

  function HealthySet(p: PoolState): set<nat> {
    set i | 0 <= i < |p.healthy| && p.healthy[i]
  }

  lemma {:induction false} SelectsOnly(p: PoolState, k: nat)
    requires ValidPool(p) && HealthySet(p) != {}
    ensures var ops := seq(k, i => SelectOp);
            && After(p, ops).healthy == p.healthy
            && |Picks(p, ops)| == k && Selects(ops) == k
            && forall b :: b in Picks(p, ops) ==> b in HealthySet(p)
  {
    var ops := seq(k, i => SelectOp);
    if k > 0 {
      SelectsOnly(p, k - 1);
      assert ops[..k - 1] == seq(k - 1, i => SelectOp);
      var q := After(p, ops[..k - 1]);
      ChoiceIsNearest(q);
      var b :| b in HealthySet(p);
      assert q.healthy[b];
    }
  }

  function Elements(s: seq<nat>): set<nat> {
    set x | x in s
  }

  lemma {:induction false} DistinctCount(s: seq<nat>)
    requires forall x :: x in s ==> multiset(s)[x] == 1
    ensures |Elements(s)| == |s|
  {
    if s != [] {
      var n := |s| - 1;
      assert s == s[..n] + [s[n]];
      assert multiset(s) == multiset(s[..n]) + multiset{s[n]};
      assert s[n] in s && multiset(s)[s[n]] == 1;
      assert s[n] !in multiset(s[..n]);
      forall x | x in s[..n] ensures multiset(s[..n])[x] == 1 {
        assert x in s && x in multiset(s[..n]);
      }
      DistinctCount(s[..n]);
      assert Elements(s) == Elements(s[..n]) + {s[n]};
    }
  }

  lemma {:induction false} FullCount(s: seq<nat>, x: nat)
    requires |Elements(s)| == |s| && x in s
    ensures multiset(s)[x] == 1
  {
    var n := |s| - 1;
    assert s == s[..n] + [s[n]];
    assert Elements(s) == Elements(s[..n]) + {s[n]};
    SetCount(s[..n]);
    assert multiset(s) == multiset(s[..n]) + multiset{s[n]};
    assert s[n] !in s[..n];
    if x != s[n] {
      FullCount(s[..n], x);
    }
  }

  lemma {:induction false} SetCount(s: seq<nat>)
    ensures |Elements(s)| <= |s|
  {
    if s != [] {
      var n := |s| - 1;
      SetCount(s[..n]);
      assert s == s[..n] + [s[n]];
      assert Elements(s) == Elements(s[..n]) + {s[n]};
    } else {
      assert Elements(s) == {};
    }
  }

  /** In a round as long as the healthy set, no healthy backend goes unselected. */
  lemma RoundSelectsAll(p: PoolState, b: nat)
    requires ValidPool(p) && b in HealthySet(p)
    ensures b in Picks(p, seq(|HealthySet(p)|, i => SelectOp))
  {
    var h := HealthySet(p);
    var ops := seq(|h|, i => SelectOp);
    var picks := Picks(p, ops);
    SelectsOnly(p, |h|);
    if b !in picks {
      forall x | x in picks ensures multiset(picks)[x] == 1 {
        EqualShares(p, ops, x, b);
      }
      DistinctCount(picks);
      SubsetCount(Elements(picks), h - {b});
      assert false;
    }
  }

  /** With fixed health, any round of that length selects every healthy backend exactly once and nothing else. */
  lemma RoundIsExact(p: PoolState, b: nat)
    requires ValidPool(p) && HealthySet(p) != {}
    ensures var picks := Picks(p, seq(|HealthySet(p)|, i => SelectOp));
            Share(picks, b) == if b in HealthySet(p) then 1 else 0
  {
    var h := HealthySet(p);
    var picks := Picks(p, seq(|h|, i => SelectOp));
    SelectsOnly(p, |h|);
    if b in h {
      forall x | x in h ensures x in picks {
        RoundSelectsAll(p, x);
      }
      assert Elements(picks) == h;
      FullCount(picks, b);
    }
  }
}
