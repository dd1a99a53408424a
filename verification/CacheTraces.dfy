/** Whole runs of the cache: what a trace of lookups and stores guarantees. */
module CacheTraces {
  import opened Http
  import opened RecencyList

  datatype Op =
    | LookupOp(key: string, now: int)
    | StoreOp(key: string, response: Response, now: int)

  function Step(capacity: nat, ttl: int, l: List, op: Op): List
    requires capacity > 0
  {
    match op
    case LookupOp(key, now) => Get(l, key, now).list
    case StoreOp(key, response, now) => Put(l, capacity, ttl, key, response, now)
  }

  /** The list after a trace, starting from `l`. */
  function Run(capacity: nat, ttl: int, l: List, ops: seq<Op>): List
    requires capacity > 0
  {
    if ops == [] then l else Step(capacity, ttl, Run(capacity, ttl, l, ops[..|ops| - 1]), ops[|ops| - 1])
  }

  /** What the `i`-th operation of a trace from the empty cache returned, if it was a lookup. */
  function Answer(capacity: nat, ttl: int, ops: seq<Op>, i: nat): Option<Response>
    requires capacity > 0 && i < |ops|
  {
    if ops[i].LookupOp? then Get(Run(capacity, ttl, [], ops[..i]), ops[i].key, ops[i].now).result else None
  }

  lemma StepKeepsValid(capacity: nat, ttl: int, l: List, op: Op)
    requires capacity > 0 && Valid(l, capacity)
    ensures Valid(Step(capacity, ttl, l, op), capacity)
  {
    match op
    case LookupOp(key, now) => GetKeepsValid(l, capacity, key, now);
    case StoreOp(key, response, now) => PutKeepsValid(l, capacity, ttl, key, response, now);
  }

  lemma {:induction false} RunKeepsValid(capacity: nat, ttl: int, l: List, ops: seq<Op>)
    requires capacity > 0 && Valid(l, capacity)
    ensures Valid(Run(capacity, ttl, l, ops), capacity)
  {
    if ops != [] {
      RunKeepsValid(capacity, ttl, l, ops[..|ops| - 1]);
      StepKeepsValid(capacity, ttl, Run(capacity, ttl, l, ops[..|ops| - 1]), ops[|ops| - 1]);
    }
  }

  lemma {:induction false} RunSplits(capacity: nat, ttl: int, l: List, first: seq<Op>, second: seq<Op>)
    requires capacity > 0
    ensures Run(capacity, ttl, l, first + second) == Run(capacity, ttl, Run(capacity, ttl, l, first), second)
  {
    if second == [] {
      assert first + second == first;
    } else {
      var n := |second| - 1;
      RunSplits(capacity, ttl, l, first, second[..n]);
      var both := first + second;
      assert both[..|both| - 1] == first + second[..n] && both[|both| - 1] == second[n];
    }
  }

  // ---------- Provenance: an entry is the latest store of its key ----------

  /** The index of the last store of a key. */
  function LastStore(ops: seq<Op>, key: string): (r: Option<nat>)
    ensures r.Some? ==> r.value < |ops| && ops[r.value].StoreOp? && ops[r.value].key == key
    ensures r.Some? ==> forall i :: r.value < i < |ops| && ops[i].StoreOp? ==> ops[i].key != key
    ensures r.None? ==> forall i :: 0 <= i < |ops| && ops[i].StoreOp? ==> ops[i].key != key
  {
    if ops == [] then None
    else
      var n := |ops| - 1;
      if ops[n].StoreOp? && ops[n].key == key then Some(n) else LastStore(ops[..n], key)
  }

  lemma {:induction false} EntryIsLastStore(capacity: nat, ttl: int, ops: seq<Op>, key: string)
    requires capacity > 0
    ensures Valid(Run(capacity, ttl, [], ops), capacity)
    ensures var e := Lookup(Run(capacity, ttl, [], ops), key);
            e.Some? ==>
              && LastStore(ops, key).Some?
              && var store := ops[LastStore(ops, key).value];
              e.value == Entry(key, store.response, store.now + ttl)
  {
    RunKeepsValid(capacity, ttl, [], ops);
    if ops != [] {
      var n := |ops| - 1;
      EntryIsLastStore(capacity, ttl, ops[..n], key);
      var before := Run(capacity, ttl, [], ops[..n]);
      match ops[n]
      case LookupOp(k, now) => LookupAfterGet(before, capacity, k, now, key);
      case StoreOp(k, response, now) => LookupAfterPut(before, capacity, ttl, k, response, now, key);
    }
  }

  /** Every hit returns the latest store of its key, and does so before that store's time to live has run out. */
  lemma HitIsFreshLastStore(capacity: nat, ttl: int, ops: seq<Op>, i: nat)
    requires capacity > 0 && i < |ops| && Answer(capacity, ttl, ops, i).Some?
    ensures LastStore(ops[..i], ops[i].key).Some?
    ensures var store := ops[LastStore(ops[..i], ops[i].key).value];
            Answer(capacity, ttl, ops, i) == Some(store.response) && ops[i].now < store.now + ttl
  {
    EntryIsLastStore(capacity, ttl, ops[..i], ops[i].key);
  }

  // ---------- A miss is before the store ----------

  lemma {:induction false} NoStoreNoEntry(capacity: nat, ttl: int, l: List, ops: seq<Op>, key: string)
    requires capacity > 0 && Valid(l, capacity) && !Has(l, key)
    requires forall i :: 0 <= i < |ops| && ops[i].StoreOp? ==> ops[i].key != key
    ensures !Has(Run(capacity, ttl, l, ops), key)
  {
    if ops != [] {
      var n := |ops| - 1;
      NoStoreNoEntry(capacity, ttl, l, ops[..n], key);
      RunKeepsValid(capacity, ttl, l, ops[..n]);
      var before := Run(capacity, ttl, l, ops[..n]);
      match ops[n]
      case LookupOp(k, now) => LookupAfterGet(before, capacity, k, now, key);
      case StoreOp(k, response, now) => LookupAfterPut(before, capacity, ttl, k, response, now, key);
    }
  }

  /** A lookup that misses leaves no entry for its key. */
  lemma MissLeavesNothing(capacity: nat, l: List, key: string, now: int)
    requires Valid(l, capacity) && Get(l, key, now).result.None?
    ensures !Has(Get(l, key, now).list, key)
  {
    WithoutMembers(l, key);
  }

  /** A key absent at one point of a trace and present at the end was stored in between. */
  lemma AbsentThenPresent(capacity: nat, ttl: int, ops: seq<Op>, i: nat, key: string)
    requires capacity > 0 && i <= |ops|
    requires !Has(Run(capacity, ttl, [], ops[..i]), key) && Has(Run(capacity, ttl, [], ops), key)
    ensures LastStore(ops, key).Some? && i <= LastStore(ops, key).value
  {
    EntryIsLastStore(capacity, ttl, ops, key);
    if LastStore(ops, key).value < i {
      assert ops == ops[..i] + ops[i..];
      RunSplits(capacity, ttl, [], ops[..i], ops[i..]);
      RunKeepsValid(capacity, ttl, [], ops[..i]);
      NoStoreNoEntry(capacity, ttl, Run(capacity, ttl, [], ops[..i]), ops[i..], key);
      assert false;
    }
  }

  lemma AbsentAfterMiss(capacity: nat, ttl: int, ops: seq<Op>, i: nat)
    requires capacity > 0 && i < |ops| && ops[i].LookupOp? && Answer(capacity, ttl, ops, i).None?
    ensures !Has(Run(capacity, ttl, [], ops[..i + 1]), ops[i].key)
  {
    RunKeepsValid(capacity, ttl, [], ops[..i]);
    MissLeavesNothing(capacity, Run(capacity, ttl, [], ops[..i]), ops[i].key, ops[i].now);
    assert ops[..i + 1][..i] == ops[..i];
  }

  /** If a lookup missed and the key is present later, the store that put it there came after the lookup. */
  lemma StoreFollowsMiss(capacity: nat, ttl: int, ops: seq<Op>, i: nat)
    requires capacity > 0 && i < |ops| && ops[i].LookupOp? && Answer(capacity, ttl, ops, i).None?
    requires Has(Run(capacity, ttl, [], ops), ops[i].key)
    ensures LastStore(ops, ops[i].key).Some? && i < LastStore(ops, ops[i].key).value
  {
    AbsentAfterMiss(capacity, ttl, ops, i);
    AbsentThenPresent(capacity, ttl, ops, i + 1, ops[i].key);
  }
}
