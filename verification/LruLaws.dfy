/** Laws of least-recently-used eviction over whole traces: inclusion between capacities, and survival. */
module LruLaws {
  import opened Http
  import opened Collections
  import opened RecencyList
  import opened CacheTraces

  // ---------- Inclusion ----------

  /** `a` is obtained from `b` by dropping elements. */
  ghost predicate Sub(a: List, b: List) {
    a == [] || (b != [] && ((a[0] == b[0] && Sub(a[1..], b[1..])) || Sub(a, b[1..])))
  }

  lemma {:induction false} SubMembers(a: List, b: List)
    requires Sub(a, b)
    ensures |a| <= |b| && forall e :: e in a ==> e in b
    decreases |b|
  {
    if a != [] {
      if a[0] == b[0] && Sub(a[1..], b[1..]) {
        SubMembers(a[1..], b[1..]);
        assert a == [a[0]] + a[1..];
      } else {
        SubMembers(a, b[1..]);
      }
    }
  }

  lemma SubCons(e: Entry, a: List, b: List)
    requires Sub(a, b)
    ensures Sub([e] + a, [e] + b)
  {
    assert ([e] + a)[1..] == a && ([e] + b)[1..] == b;
  }

  lemma SubSkip(e: Entry, a: List, b: List)
    requires Sub(a, b)
    ensures Sub(a, [e] + b)
  {
    assert ([e] + b)[1..] == b;
  }

  lemma {:induction false} SubWithoutLast(a: List, b: List)
    requires Sub(a, b) && a != []
    ensures Sub(a[..|a| - 1], b[..|b| - 1])
    decreases |b|
  {
    var a', b' := a[..|a| - 1], b[..|b| - 1];
    SubMembers(a, b);
    if a' != [] {
      if a[0] == b[0] && Sub(a[1..], b[1..]) {
        SubWithoutLast(a[1..], b[1..]);
        SubMembers(a[1..], b[1..]);
        assert a'[1..] == a[1..][..|a| - 2] && b'[1..] == b[1..][..|b| - 2];
      } else {
        SubWithoutLast(a, b[1..]);
        SubMembers(a, b[1..]);
        assert b'[1..] == b[1..][..|b| - 2];
      }
    }
  }

  lemma {:induction false} SubDropLast(a: List, b: List)
    requires Sub(a, b) && a != []
    ensures Sub(a[..|a| - 1], b)
    decreases |b|
  {
    var a' := a[..|a| - 1];
    if a' != [] {
      if a[0] == b[0] && Sub(a[1..], b[1..]) {
        SubDropLast(a[1..], b[1..]);
        assert a'[1..] == a[1..][..|a| - 2];
      } else {
        SubDropLast(a, b[1..]);
      }
    }
  }

  lemma {:induction false} SubWithout(a: List, b: List, key: string)
    requires Sub(a, b)
    ensures Sub(Without(a, key), Without(b, key))
    decreases |b|
  {
    if a != [] {
      if a[0] == b[0] && Sub(a[1..], b[1..]) {
        SubWithout(a[1..], b[1..], key);
        if a[0].key == key {
          assert Without(a, key) == Without(a[1..], key) && Without(b, key) == Without(b[1..], key);
        } else {
          SubCons(a[0], Without(a[1..], key), Without(b[1..], key));
        }
      } else {
        SubWithout(a, b[1..], key);
        if b[0].key == key {
          assert Without(b, key) == Without(b[1..], key);
        } else {
          SubSkip(b[0], Without(a, key), Without(b[1..], key));
        }
      }
    }
  }

  /** The relation between the smaller and the larger cache. */
  ghost predicate Included(small: List, s: nat, large: List, l: nat) {
    && Valid(small, s) && Valid(large, l)
    && Sub(small, large)
    && |large| - |small| <= l - s
  }

  /** A key the smaller cache holds has the same entry in the larger. */
  lemma IncludedLookup(small: List, s: nat, large: List, l: nat, key: string)
    requires Included(small, s, large, l) && Has(small, key)
    ensures Lookup(large, key) == Lookup(small, key)
  {
    SubMembers(small, large);
    var e := Lookup(small, key).value;
    var i :| 0 <= i < |large| && large[i] == e;
    LookupAt(large, i);
  }

  lemma WithoutSize(l: List, key: string)
    requires DistinctKeys(l)
    ensures |Without(l, key)| == if Has(l, key) then |l| - 1 else |l|
  {
    if Has(l, key) {
      var i :| 0 <= i < |l| && l[i].key == key;
      WithoutAt(l, i);
    } else {
      WithoutAbsent(l, key);
    }
  }

  lemma LookupPreservesInclusion(small: List, s: nat, large: List, l: nat, key: string, now: int)
    requires Included(small, s, large, l)
    ensures Included(Get(small, key, now).list, s, Get(large, key, now).list, l)
    ensures Get(small, key, now).result.Some? ==> Get(large, key, now).result == Get(small, key, now).result
  {
    GetKeepsValid(small, s, key, now);
    GetKeepsValid(large, l, key, now);
    SubWithout(small, large, key);
    WithoutSize(small, key);
    WithoutSize(large, key);
    if Has(small, key) {
      IncludedLookup(small, s, large, l, key);
      SubCons(Lookup(small, key).value, Without(small, key), Without(large, key));
    } else if Has(large, key) {
      WithoutAbsent(small, key);
      SubSkip(Lookup(large, key).value, small, Without(large, key));
    }
  }

  lemma StorePreservesInclusion(small: List, s: nat, large: List, l: nat, ttl: int, key: string, r: Response, now: int)
    requires 0 < s <= l && Included(small, s, large, l)
    ensures Included(Put(small, s, ttl, key, r, now), s, Put(large, l, ttl, key, r, now), l)
  {
    var e := Entry(key, r, now + ttl);
    PutKeepsValid(small, s, ttl, key, r, now);
    PutKeepsValid(large, l, ttl, key, r, now);
    WithoutSize(small, key);
    WithoutSize(large, key);
    SubMembers(small, large);
    SubWithout(small, large, key);
    if Has(small, key) {
      IncludedLookup(small, s, large, l, key);
      SubCons(e, Without(small, key), Without(large, key));
    } else if Has(large, key) {
      WithoutAbsent(small, key);
      StoreHeldByLarge(e, small, s, Without(large, key));
    } else {
      StoreHeldByNeither(e, small, s, large, l);
    }
  }

  lemma StoreHeldByLarge(e: Entry, small: List, s: nat, rest: List)
    requires 0 < s && Sub(small, rest)
    ensures Sub([e] + if |small| == s then small[..|small| - 1] else small, [e] + rest)
  {
    if |small| == s {
      SubDropLast(small, rest);
      SubCons(e, small[..|small| - 1], rest);
    } else {
      SubCons(e, small, rest);
    }
  }

  lemma StoreHeldByNeither(e: Entry, small: List, s: nat, large: List, l: nat)
    requires 0 < s <= l && Included(small, s, large, l)
    ensures Sub([e] + if |small| == s then small[..|small| - 1] else small,
                [e] + if |large| == l then large[..|large| - 1] else large)
  {
    if |small| == s && |large| == l {
      SubWithoutLast(small, large);
      SubCons(e, small[..|small| - 1], large[..|large| - 1]);
    } else {
      StoreHeldByLarge(e, small, s, large);
    }
  }

  /** On every trace the smaller cache's list is a subsequence of the larger's, short of it by at most the extra room. */
  lemma {:induction false} Inclusion(s: nat, l: nat, ttl: int, ops: seq<Op>)
    requires 0 < s <= l
    ensures Included(Run(s, ttl, [], ops), s, Run(l, ttl, [], ops), l)
  {
    if ops != [] {
      var n := |ops| - 1;
      Inclusion(s, l, ttl, ops[..n]);
      var small, large := Run(s, ttl, [], ops[..n]), Run(l, ttl, [], ops[..n]);
      match ops[n]
      case LookupOp(key, now) => LookupPreservesInclusion(small, s, large, l, key, now);
      case StoreOp(key, r, now) => StorePreservesInclusion(small, s, large, l, ttl, key, r, now);
    }
  }

  /** Every hit of the smaller cache is the same hit of the larger. */
  lemma HitsAreIncluded(s: nat, l: nat, ttl: int, ops: seq<Op>, i: nat)
    requires 0 < s <= l && i < |ops| && Answer(s, ttl, ops, i).Some?
    ensures Answer(l, ttl, ops, i) == Answer(s, ttl, ops, i)
  {
    Inclusion(s, l, ttl, ops[..i]);
    LookupPreservesInclusion(Run(s, ttl, [], ops[..i]), s, Run(l, ttl, [], ops[..i]), l, ops[i].key, ops[i].now);
  }

  // ---------- Survival ----------

  /** An operation uses the key it stores, or the key it finds. */
  predicate Uses(l: List, op: Op) {
    op.StoreOp? || Get(l, op.key, op.now).result.Some?
  }

  /** The distinct keys other than `key` that a trace from `l` uses. */
  function OthersUsed(capacity: nat, ttl: int, l: List, ops: seq<Op>, key: string): set<string>
    requires capacity > 0
  {
    if ops == [] then {}
    else
      var n := |ops| - 1;
      OthersUsed(capacity, ttl, l, ops[..n], key)
      + if ops[n].key != key && Uses(Run(capacity, ttl, l, ops[..n]), ops[n]) then {ops[n].key} else {}
  }

  /** The keys more recently used than `key`. */
  function Ahead(l: List, key: string): set<string> {
    if l == [] || l[0].key == key then {} else {l[0].key} + Ahead(l[1..], key)
  }

  lemma {:induction false} AheadWithout(l: List, x: string, key: string)
    requires x != key
    ensures Ahead(Without(l, x), key) == Ahead(l, key) - {x}
  {
    if l != [] {
      AheadWithout(l[1..], x, key);
      var rest := Without(l[1..], x);
      if l[0].key == x {
        assert Without(l, x) == rest;
      } else {
        assert ([l[0]] + rest)[1..] == rest;
      }
    }
  }

  lemma AheadCons(e: Entry, l: List, key: string)
    requires e.key != key
    ensures Ahead([e] + l, key) == {e.key} + Ahead(l, key)
  {
    assert ([e] + l)[1..] == l;
  }

  lemma {:induction false} AheadDropLast(l: List, key: string)
    requires DistinctKeys(l) && Has(l, key) && l[|l| - 1].key != key
    ensures Ahead(l[..|l| - 1], key) == Ahead(l, key)
  {
    if l[0].key != key {
      HasTail(l, key);
      AheadDropLast(l[1..], key);
      assert l[..|l| - 1][1..] == l[1..][..|l| - 2];
    }
  }

  lemma HasTail(l: List, key: string)
    requires Has(l, key) && l[0].key != key
    ensures Has(l[1..], key) && l[1..] != [] && l[1..][|l| - 2] == l[|l| - 1]
  {
    var i :| 0 <= i < |l| && l[i].key == key;
    assert l[1..][i - 1] == l[i];
  }

  /** The keys ahead are keys of the list. */
  lemma {:induction false} AheadKeys(l: List, key: string, k: string)
    requires k in Ahead(l, key)
    ensures Has(l, k) && k != key
  {
    if k == l[0].key {
    } else {
      AheadKeys(l[1..], key, k);
      var i :| 0 <= i < |l[1..]| && l[1..][i].key == k;
      assert l[i + 1].key == k;
    }
  }

  /** There are fewer keys ahead than entries, one fewer exactly for the last key. */
  lemma {:induction false} AheadSize(l: List, key: string)
    requires DistinctKeys(l) && Has(l, key)
    ensures |Ahead(l, key)| < |l|
    ensures l[|l| - 1].key == key ==> |Ahead(l, key)| == |l| - 1
  {
    if l[0].key != key {
      HasTail(l, key);
      AheadSize(l[1..], key);
      assert forall i :: 0 <= i < |l[1..]| ==> l[1..][i] == l[i + 1];
      if l[0].key in Ahead(l[1..], key) {
        AheadKeys(l[1..], key, l[0].key);
      }
    }
  }

  lemma AheadCount(l: List, key: string)
    requires DistinctKeys(l) && Has(l, key)
    ensures |Ahead(l, key)| < |l| && key !in Ahead(l, key)
    ensures l[|l| - 1].key == key ==> |Ahead(l, key)| == |l| - 1
    ensures forall k :: k in Ahead(l, key) ==> Has(l, k)
  {
    AheadSize(l, key);
    forall k | k in Ahead(l, key) ensures Has(l, k) && k != key {
      AheadKeys(l, key, k);
    }
  }

  /** The one way a store loses a key: it is last in a full list and the stored key is new. */
  predicate Evicts(capacity: nat, l: List, op: Op, key: string) {
    op.StoreOp? && !Has(l, op.key) && |l| == capacity && l != [] && l[|l| - 1].key == key
  }

  /** How an operation on another key moves `key` back: by exactly the key it uses. */
  lemma StepOnOther(capacity: nat, ttl: int, l: List, op: Op, key: string)
    requires 0 < capacity && Valid(l, capacity) && Has(l, key) && op.key != key
    ensures !Evicts(capacity, l, op, key) ==>
              && Lookup(Step(capacity, ttl, l, op), key) == Lookup(l, key)
              && Ahead(Step(capacity, ttl, l, op), key)
                 == if Uses(l, op) then Ahead(l, key) + {op.key} else Ahead(l, key) - {op.key}
    ensures Evicts(capacity, l, op, key) ==>
              && !Has(Step(capacity, ttl, l, op), key)
              && |Ahead(l, key) + {op.key}| == capacity
  {
    if op.LookupOp? {
      LookupAfterGet(l, capacity, op.key, op.now, key);
      AheadWithout(l, op.key, key);
      LookupOnOther(l, op.key, op.now, key);
    } else {
      LookupAfterPut(l, capacity, ttl, op.key, op.response, op.now, key);
      AheadCount(l, key);
      if !Evicts(capacity, l, op, key) {
        StoreOnOther(capacity, l, Entry(op.key, op.response, op.now + ttl), key);
      }
    }
  }

  lemma StoreOnOther(capacity: nat, l: List, front: Entry, key: string)
    requires 0 < capacity && Valid(l, capacity) && Has(l, key) && front.key != key
    requires Has(l, front.key) || |l| < capacity || l[|l| - 1].key != key
    ensures var rest := if Has(l, front.key) then Without(l, front.key)
                        else if |l| == capacity then l[..|l| - 1] else l;
            Ahead([front] + rest, key) == Ahead(l, key) + {front.key}
  {
    if Has(l, front.key) {
      AheadWithout(l, front.key, key);
      AheadCons(front, Without(l, front.key), key);
    } else if |l| == capacity {
      AheadDropLast(l, key);
      AheadCons(front, l[..|l| - 1], key);
    } else {
      AheadCons(front, l, key);
    }
  }

  lemma LookupOnOther(l: List, x: string, now: int, key: string)
    requires x != key && Ahead(Without(l, x), key) == Ahead(l, key) - {x}
    requires DistinctKeys(l) && Has(l, key)
    ensures Ahead(Get(l, x, now).list, key)
            == if Get(l, x, now).result.Some? then Ahead(l, key) + {x} else Ahead(l, key) - {x}
  {
    AheadCount(l, key);
    if Has(l, x) {
      AheadCons(Lookup(l, x).value, Without(l, x), key);
    }
  }

  lemma SurvivesStep(capacity: nat, ttl: int, l: List, e: Entry, others: set<string>, op: Op)
    requires 0 < capacity && Valid(l, capacity)
    requires Lookup(l, e.key) == Some(e) && Ahead(l, e.key) <= others
    requires op.key == e.key ==> op.LookupOp? && op.now < e.expires
    requires |others + if op.key != e.key && Uses(l, op) then {op.key} else {}| < capacity
    ensures Lookup(Step(capacity, ttl, l, op), e.key) == Some(e)
    ensures Ahead(Step(capacity, ttl, l, op), e.key)
            <= others + if op.key != e.key && Uses(l, op) then {op.key} else {}
  {
    if op.key == e.key {
      LookupAfterGet(l, capacity, op.key, op.now, e.key);
    } else {
      StepOnOther(capacity, ttl, l, op, e.key);
      if Evicts(capacity, l, op, e.key) {
        SubsetCount(Ahead(l, e.key) + {op.key}, others + {op.key});
      }
    }
  }

  /**
   * A key just stored or found stays, with the same entry, as long as fewer than `capacity` distinct other keys
   * are used and the key itself is only looked up before its expiry.
   */
  lemma {:induction false} Survival(capacity: nat, ttl: int, l: List, ops: seq<Op>)
    requires 0 < capacity && Valid(l, capacity) && l != []
    requires |OthersUsed(capacity, ttl, l, ops, l[0].key)| < capacity
    requires forall i :: 0 <= i < |ops| && ops[i].key == l[0].key ==> ops[i].LookupOp? && ops[i].now < l[0].expires
    ensures Lookup(Run(capacity, ttl, l, ops), l[0].key) == Some(l[0])
    ensures Ahead(Run(capacity, ttl, l, ops), l[0].key) <= OthersUsed(capacity, ttl, l, ops, l[0].key)
  {
    var e := l[0];
    if ops != [] {
      var n := |ops| - 1;
      SubsetCount(OthersUsed(capacity, ttl, l, ops[..n], e.key), OthersUsed(capacity, ttl, l, ops, e.key));
      Survival(capacity, ttl, l, ops[..n]);
      RunKeepsValid(capacity, ttl, l, ops[..n]);
      SurvivesStep(capacity, ttl, Run(capacity, ttl, l, ops[..n]), e, OthersUsed(capacity, ttl, l, ops[..n], e.key), ops[n]);
    }
  }

  /** So in every trace, a lookup of such a key before its expiry is a hit on that entry. */
  lemma SurvivorIsHit(capacity: nat, ttl: int, first: seq<Op>, op: Op, rest: seq<Op>, now: int)
    requires 0 < capacity && Uses(Run(capacity, ttl, [], first), op)
    requires var l := Run(capacity, ttl, [], first + [op]);
             && Lookup(l, op.key).Some?
             && |OthersUsed(capacity, ttl, l, rest, op.key)| < capacity
             && now < Lookup(l, op.key).value.expires
             && forall i :: 0 <= i < |rest| && rest[i].key == op.key ==>
                              rest[i].LookupOp? && rest[i].now < Lookup(l, op.key).value.expires
    ensures var l := Run(capacity, ttl, [], first + [op]);
            Get(Run(capacity, ttl, [], first + [op] + rest), op.key, now).result == Some(Lookup(l, op.key).value.response)
  {
    var trace := first + [op];
    assert trace[..|trace| - 1] == first;
    var l := Run(capacity, ttl, [], trace);
    RunKeepsValid(capacity, ttl, [], trace);
    assert l == Step(capacity, ttl, Run(capacity, ttl, [], first), op);
    LookupAt(l, 0);
    RunSplits(capacity, ttl, [], trace, rest);
    Survival(capacity, ttl, l, rest);
  }

  // ---------- The guarantee is tight ----------

  /** No lookup of the trace meets an expired entry. */
  predicate NothingExpires(capacity: nat, ttl: int, l: List, ops: seq<Op>)
    requires capacity > 0
  {
    ops == [] ||
    var n := |ops| - 1;
    && NothingExpires(capacity, ttl, l, ops[..n])
    && (var e := Lookup(Run(capacity, ttl, l, ops[..n]), ops[n].key);
        ops[n].LookupOp? && e.Some? ==> ops[n].now < e.value.expires)
  }

  /** Where nothing expires, a key that is left alone survives exactly while fewer than `capacity` other keys are used. */
  lemma {:induction false} SurvivalExact(capacity: nat, ttl: int, l: List, ops: seq<Op>)
    requires 0 < capacity && Valid(l, capacity) && l != []
    requires NothingExpires(capacity, ttl, l, ops)
    requires forall i :: 0 <= i < |ops| ==> ops[i].key != l[0].key
    ensures Has(Run(capacity, ttl, l, ops), l[0].key) <==> |OthersUsed(capacity, ttl, l, ops, l[0].key)| < capacity
    ensures Has(Run(capacity, ttl, l, ops), l[0].key) ==>
              Ahead(Run(capacity, ttl, l, ops), l[0].key) == OthersUsed(capacity, ttl, l, ops, l[0].key)
  {
    var key := l[0].key;
    if ops != [] {
      var n := |ops| - 1;
      var before := Run(capacity, ttl, l, ops[..n]);
      SurvivalExact(capacity, ttl, l, ops[..n]);
      RunKeepsValid(capacity, ttl, l, ops[..n]);
      RunKeepsValid(capacity, ttl, l, ops);
      SubsetCount(OthersUsed(capacity, ttl, l, ops[..n], key), OthersUsed(capacity, ttl, l, ops, key));
      if Has(before, key) {
        StepOnOther(capacity, ttl, before, ops[n], key);
        AheadCount(before, key);
        if !Evicts(capacity, before, ops[n], key) {
          AheadCount(Run(capacity, ttl, l, ops), key);
        }
      } else {
        StaysAbsent(capacity, ttl, before, ops[n], key);
      }
    }
  }

  lemma StaysAbsent(capacity: nat, ttl: int, l: List, op: Op, key: string)
    requires 0 < capacity && Valid(l, capacity) && !Has(l, key) && !(op.StoreOp? && op.key == key)
    ensures !Has(Step(capacity, ttl, l, op), key)
  {
    match op
    case LookupOp(k, now) => LookupAfterGet(l, capacity, k, now, key);
    case StoreOp(k, response, now) => LookupAfterPut(l, capacity, ttl, k, response, now, key);
  }

  // ---------- Exactly when a key is present ----------

  /** Operation `j` takes out the entry that store `k` made: a lookup too late, or a store that evicts it. */
  predicate Removes(capacity: nat, ttl: int, ops: seq<Op>, j: nat, k: nat)
    requires capacity > 0 && j < |ops| && k < |ops|
  {
    match ops[j]
    case LookupOp(key, now) => key == ops[k].key && ops[k].now + ttl <= now
    case StoreOp(_, _, _) => Evicts(capacity, Run(capacity, ttl, [], ops[..j]), ops[j], ops[k].key)
  }

  /** Nothing after store `k` takes out its entry. */
  ghost predicate NotRemovedSince(capacity: nat, ttl: int, ops: seq<Op>, k: nat) {
    capacity > 0 && k < |ops| && forall j :: k < j < |ops| ==> !Removes(capacity, ttl, ops, j, k)
  }

  lemma StepPresence(capacity: nat, ttl: int, l: List, op: Op, key: string)
    requires capacity > 0 && Valid(l, capacity) && !(op.StoreOp? && op.key == key)
    ensures Has(Step(capacity, ttl, l, op), key) <==>
            Has(l, key) && !Evicts(capacity, l, op, key)
            && !(op.key == key && op.LookupOp? && Lookup(l, key).value.expires <= op.now)
  {
    if Has(l, key) && op.key != key {
      StepOnOther(capacity, ttl, l, op, key);
    } else if Has(l, key) {
      LookupAfterGet(l, capacity, op.key, op.now, key);
    } else {
      StaysAbsent(capacity, ttl, l, op, key);
    }
  }

  lemma RemovalSnoc(capacity: nat, ttl: int, ops: seq<Op>, k: nat)
    requires capacity > 0 && k < |ops| - 1
    ensures var n := |ops| - 1;
            NotRemovedSince(capacity, ttl, ops, k) <==>
            NotRemovedSince(capacity, ttl, ops[..n], k) && !Removes(capacity, ttl, ops, n, k)
  {
    var n := |ops| - 1;
    forall j | k < j < n ensures Removes(capacity, ttl, ops[..n], j, k) == Removes(capacity, ttl, ops, j, k) {
      RemovalPrefix(capacity, ttl, ops, n, j, k);
    }
  }

  lemma RemovalPrefix(capacity: nat, ttl: int, ops: seq<Op>, n: nat, j: nat, k: nat)
    requires capacity > 0 && k < j < n <= |ops|
    ensures Removes(capacity, ttl, ops[..n], j, k) == Removes(capacity, ttl, ops, j, k)
  {
    assert ops[..n][..j] == ops[..j];
  }

  /** On every trace a key is present exactly if it was stored and nothing since has expired or evicted it. */
  lemma {:induction false} PresentExactly(capacity: nat, ttl: int, ops: seq<Op>, key: string)
    requires capacity > 0
    ensures Has(Run(capacity, ttl, [], ops), key) <==>
            LastStore(ops, key).Some? && NotRemovedSince(capacity, ttl, ops, LastStore(ops, key).value)
  {
    if ops != [] {
      var n := |ops| - 1;
      var before := Run(capacity, ttl, [], ops[..n]);
      PresentExactly(capacity, ttl, ops[..n], key);
      EntryIsLastStore(capacity, ttl, ops[..n], key);
      if ops[n].StoreOp? && ops[n].key == key {
        LookupAfterPut(before, capacity, ttl, key, ops[n].response, ops[n].now, key);
      } else {
        StepPresence(capacity, ttl, before, ops[n], key);
        if LastStore(ops, key).Some? {
          RemovalSnoc(capacity, ttl, ops, LastStore(ops, key).value);
        }
      }
    }
  }
}
