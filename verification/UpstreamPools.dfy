/** The pool of upstreams: health flags and a rotating start index. */
module UpstreamPools {
  import opened Http
  import opened Endpoints

  datatype PoolState = PoolState(healthy: seq<bool>, next: nat)

  predicate ValidPool(p: PoolState) {
    p.next < |p.healthy|
  }

  /** How many steps forward, around the ring of `n`, lead from one index to another. */
  function Distance(n: nat, from: nat, to: nat): (d: nat)
    requires from < n && to < n
    ensures d < n
  {
    if from <= to then to - from else to + n - from
  }

  /** The index `offset` steps after `from`. */
  function Forward(n: nat, from: nat, offset: nat): (i: nat)
    requires from < n && offset < n
    ensures i < n && Distance(n, from, i) == offset
  {
    if from + offset < n then from + offset else from + offset - n
  }

  function Successor(n: nat, i: nat): (j: nat)
    requires i < n
    ensures j < n
  {
    if i + 1 == n then 0 else i + 1
  }

  /** The first healthy index at or after `offset` steps from the start. */
  function ChoiceFrom(p: PoolState, offset: nat): (r: Option<nat>)
    requires ValidPool(p) && offset <= |p.healthy|
    ensures r.Some? ==> r.value < |p.healthy|
    decreases |p.healthy| - offset
  {
    if offset == |p.healthy| then None
    else
      var i := Forward(|p.healthy|, p.next, offset);
      if p.healthy[i] then Some(i) else ChoiceFrom(p, offset + 1)
  }

  function Choice(p: PoolState): (r: Option<nat>)
    requires ValidPool(p)
    ensures r.Some? ==> r.value < |p.healthy|
  {
    ChoiceFrom(p, 0)
  }

  function SelectState(p: PoolState): (q: PoolState)
    requires ValidPool(p)
    ensures ValidPool(q) && q.healthy == p.healthy
  {
    match Choice(p)
    case None => p
    case Some(i) => p.(next := Successor(|p.healthy|, i))
  }

  function SetHealthyState(p: PoolState, index: nat, healthy: bool): (q: PoolState)
    ensures |q.healthy| == |p.healthy| && q.next == p.next
  {
    if index < |p.healthy| then p.(healthy := p.healthy[index := healthy]) else p
  }

  lemma {:induction false} ChoiceFromIsNearest(p: PoolState, offset: nat)
    requires ValidPool(p) && offset <= |p.healthy|
    ensures var n, r := |p.healthy|, ChoiceFrom(p, offset);
            && (r.None? ==> forall j :: 0 <= j < n && Distance(n, p.next, j) >= offset ==> !p.healthy[j])
            && (r.Some? ==> p.healthy[r.value] && Distance(n, p.next, r.value) >= offset)
            && (r.Some? ==> forall j :: 0 <= j < n && p.healthy[j] && Distance(n, p.next, j) >= offset ==>
                                        Distance(n, p.next, r.value) <= Distance(n, p.next, j))
    decreases |p.healthy| - offset
  {
    var n := |p.healthy|;
    if offset < n && !p.healthy[Forward(n, p.next, offset)] {
      ChoiceFromIsNearest(p, offset + 1);
      forall j | 0 <= j < n && Distance(n, p.next, j) == offset ensures !p.healthy[j] {
        assert j == Forward(n, p.next, offset);
      }
    }
  }

  /** Selection takes the healthy index nearest after the start, and fails exactly when none is healthy. */
  lemma ChoiceIsNearest(p: PoolState)
    requires ValidPool(p)
    ensures Choice(p).None? <==> forall j :: 0 <= j < |p.healthy| ==> !p.healthy[j]
    ensures Choice(p).Some? ==> p.healthy[Choice(p).value]
    ensures Choice(p).Some? ==> forall j :: 0 <= j < |p.healthy| && p.healthy[j] ==>
                                  Distance(|p.healthy|, p.next, Choice(p).value) <= Distance(|p.healthy|, p.next, j)
  {
    ChoiceFromIsNearest(p, 0);
  }

  /** A selection moves the start just behind its choice, and one that fails changes nothing; flags never change. */
  lemma SelectMovesStart(p: PoolState)
    requires ValidPool(p)
    ensures SelectState(p).healthy == p.healthy
    ensures Choice(p).None? ==> SelectState(p) == p
    ensures Choice(p).Some? ==> SelectState(p).next == (Choice(p).value + 1) % |p.healthy|
  {
    if Choice(p).Some? {
      RingArithmetic(|p.healthy|, Choice(p).value, 0);
    }
  }

  // ---------- The pool as it is built ----------

  datatype Backend = Backend(endpoint: Endpoint, healthy: bool)

  function Flags(backends: seq<Backend>): (flags: seq<bool>)
    ensures |flags| == |backends|
    ensures forall i :: 0 <= i < |flags| ==> flags[i] == backends[i].healthy
  {
    seq(|backends|, i requires 0 <= i < |backends| => backends[i].healthy)
  }

  lemma RingArithmetic(n: nat, from: nat, offset: nat)
    requires from < n && offset < n
    ensures (from + offset) % n == Forward(n, from, offset)
    ensures (from + 1) % n == Successor(n, from)
  {
    RemainderOnce(from + offset, n);
    RemainderOnce(from + 1, n);
  }

  lemma RemainderOnce(a: nat, n: nat)
    requires 0 < n && a < 2 * n
    ensures a % n == if a < n then a else a - n
  {
    var q, r := a / n, a % n;
    assert a == n * q + r;
    QuotientBound(n, q);
  }

  lemma QuotientBound(n: nat, q: nat)
    ensures q == 0 ==> n * q == 0
    ensures q == 1 ==> n * q == n
    ensures q >= 2 ==> n * q >= 2 * n
  {
    if q >= 2 {
      assert n * q == 2 * n + n * (q - 2);
    }
  }

  class UpstreamPool {
    var backends: seq<Backend>
    var nextIndex: nat

    ghost predicate Valid()
      reads this
    {
      nextIndex < |backends|
    }

    ghost function View(): (p: PoolState)
      reads this
      ensures |p.healthy| == |backends| && p.next == nextIndex
    {
      PoolState(Flags(backends), nextIndex)
    }

    ghost function EndpointsView(): seq<Endpoint>
      reads this
    {
      seq(|backends|, i requires 0 <= i < |backends| reads this => backends[i].endpoint)
    }

    constructor (endpoints: seq<Endpoint>)
      requires endpoints != []
      ensures Valid() && EndpointsView() == endpoints
      ensures View() == PoolState(seq(|endpoints|, i => true), 0)
    {
      nextIndex := 0;
      backends := [];
      new;
      for i := 0 to |endpoints|
        invariant |backends| == i && nextIndex == 0
        invariant forall j :: 0 <= j < i ==> backends[j] == Backend(endpoints[j], true)
      {
        backends := backends + [Backend(endpoints[i], true)];
      }
    }

    method Select() returns (r: Option<Endpoint>)
      requires Valid()
      modifies this`nextIndex
      ensures Valid() && View() == SelectState(old(View()))
      ensures r == match Choice(old(View()))
                   case None => None
                   case Some(i) => Some(backends[i].endpoint)
    {
      ghost var before := View();
      var n := |backends|;
      var offset := 0;
      while offset < n
        invariant offset <= n && nextIndex == old(nextIndex)
        invariant Choice(before) == ChoiceFrom(before, offset)
      {
        var index := (nextIndex + offset) % n;
        RingArithmetic(n, nextIndex, offset);
        RingArithmetic(n, index, 0);
        if backends[index].healthy {
          nextIndex := (index + 1) % n;
          return Some(backends[index].endpoint);
        }
        offset := offset + 1;
      }
      return None;
    }

    /** `backends_.at(index)`: an index out of range is an error and changes nothing. */
    method SetHealthy(index: nat, healthy: bool) returns (changed: Option<bool>)
      requires Valid()
      modifies this`backends
      ensures Valid() && View() == SetHealthyState(old(View()), index, healthy)
      ensures EndpointsView() == old(EndpointsView())
      ensures changed == if index < old(|backends|) then Some(old(backends)[index].healthy != healthy) else None
    {
      if index >= |backends| {
        return None;
      }
      var backend := backends[index];
      if backend.healthy == healthy {
        assert View().healthy == View().healthy[index := healthy];
        return Some(false);
      }
      backends := backends[index := backend.(healthy := healthy)];
      return Some(true);
    }

    method IsHealthy(index: nat) returns (r: Option<bool>)
      ensures r == if index < |View().healthy| then Some(View().healthy[index]) else None
    {
      if index >= |backends| {
        return None;
      }
      return Some(backends[index].healthy);
    }
  }

  /** The constructor's guard: a pool of nothing is refused. */
  method MakePool(endpoints: seq<Endpoint>) returns (pool: UpstreamPool?)
    ensures pool == null <==> endpoints == []
    ensures pool != null ==> fresh(pool) && pool.Valid() && pool.EndpointsView() == endpoints
    ensures pool != null ==> pool.View() == PoolState(seq(|endpoints|, i => true), 0)
  {
    if endpoints == [] {
      return null;
    }
    pool := new UpstreamPool(endpoints);
  }
}
