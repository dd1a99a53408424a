/** The response cache as a plain list, most recently used first. */
module RecencyList {
  import opened Http

  datatype Entry = Entry(key: string, response: Response, expires: int)

  type List = seq<Entry>

  predicate Has(l: List, key: string) {
    exists i :: 0 <= i < |l| && l[i].key == key
  }

  predicate DistinctKeys(l: List) {
    forall i, j :: 0 <= i < j < |l| ==> l[i].key != l[j].key
  }

  function Lookup(l: List, key: string): (r: Option<Entry>)
    ensures r.Some? <==> Has(l, key)
    ensures r.Some? ==> r.value in l && r.value.key == key
  {
    if l == [] then None
    else if l[0].key == key then Some(l[0])
    else
      assert Has(l, key) <==> Has(l[1..], key) by {
        assert forall i :: 0 < i < |l| ==> l[i] == l[1..][i - 1];
      }
      Lookup(l[1..], key)
  }

  function Without(l: List, key: string): List {
    if l == [] then []
    else (if l[0].key == key then [] else [l[0]]) + Without(l[1..], key)
  }

  /** What a lookup answers, and the list it leaves. */
  datatype Found = Found(result: Option<Response>, list: List)

  function Get(l: List, key: string, now: int): Found {
    match Lookup(l, key)
    case None => Found(None, l)
    case Some(e) =>
      if now >= e.expires then Found(None, Without(l, key))
      else Found(Some(e.response), [e] + Without(l, key))
  }

  function Put(l: List, capacity: nat, ttl: int, key: string, response: Response, now: int): List
    requires capacity > 0
  {
    var e := Entry(key, response, now + ttl);
    if Has(l, key) then [e] + Without(l, key)
    else if |l| == capacity then [e] + l[..|l| - 1]
    else [e] + l
  }

  ghost predicate Valid(l: List, capacity: nat) {
    DistinctKeys(l) && |l| <= capacity
  }

  // ---------- Facts about lists ----------

  lemma {:induction false} WithoutMembers(l: List, key: string)
    ensures forall e :: e in Without(l, key) <==> e in l && e.key != key
    ensures !Has(Without(l, key), key)
    ensures forall k :: k != key ==> Has(Without(l, key), k) == Has(l, k)
    ensures |Without(l, key)| <= |l|
    ensures Has(l, key) ==> |Without(l, key)| < |l|
  {
    if l != [] {
      WithoutMembers(l[1..], key);
      assert l == [l[0]] + l[1..];
      HasMeansIn(l[1..]);
    }
    HasMeansIn(l);
    HasMeansIn(Without(l, key));
  }

  lemma HasMeansIn(l: List)
    ensures forall k :: Has(l, k) <==> exists e :: e in l && e.key == k
  {
    forall k ensures Has(l, k) <==> exists e :: e in l && e.key == k {
      if Has(l, k) {
        var i :| 0 <= i < |l| && l[i].key == k;
        assert l[i] in l;
      }
    }
  }

  lemma {:induction false} WithoutAbsent(l: List, key: string)
    requires !Has(l, key)
    ensures Without(l, key) == l
  {
    if l != [] {
      assert forall i :: 0 <= i < |l[1..]| ==> l[1..][i] == l[i + 1];
      WithoutAbsent(l[1..], key);
      assert l == [l[0]] + l[1..];
    }
  }

  lemma {:induction false} WithoutAt(l: List, i: nat)
    requires DistinctKeys(l) && i < |l|
    ensures Without(l, l[i].key) == l[..i] + l[i + 1..]
  {
    var t := l[1..];
    assert forall j :: 0 <= j < |t| ==> t[j] == l[j + 1];
    if i == 0 {
      WithoutAbsent(t, l[0].key);
    } else {
      WithoutAt(t, i - 1);
      assert t[..i - 1] == l[1..i] && t[i..] == l[i + 1..];
      assert [l[0]] + l[1..i] == l[..i];
    }
  }

  lemma LookupAt(l: List, i: nat)
    requires DistinctKeys(l) && i < |l|
    ensures Lookup(l, l[i].key) == Some(l[i])
  {
    assert Has(l, l[i].key);
    var e := Lookup(l, l[i].key).value;
    var j :| 0 <= j < |l| && l[j] == e;
  }

  lemma WithoutDistinct(l: List, key: string)
    requires DistinctKeys(l)
    ensures DistinctKeys(Without(l, key))
  {
    if Has(l, key) {
      var i :| 0 <= i < |l| && l[i].key == key;
      WithoutAt(l, i);
    } else {
      WithoutAbsent(l, key);
    }
  }

  lemma ConsDistinct(e: Entry, l: List)
    requires DistinctKeys(l) && !Has(l, e.key)
    ensures DistinctKeys([e] + l)
  {
  }

  /** Both operations keep the keys distinct and the size within the capacity. */
  lemma GetKeepsValid(l: List, capacity: nat, key: string, now: int)
    requires Valid(l, capacity)
    ensures Valid(Get(l, key, now).list, capacity)
  {
    WithoutDistinct(l, key);
    WithoutMembers(l, key);
    if Has(l, key) {
      ConsDistinct(Lookup(l, key).value, Without(l, key));
    }
  }

  lemma PutKeepsValid(l: List, capacity: nat, ttl: int, key: string, response: Response, now: int)
    requires capacity > 0 && Valid(l, capacity)
    ensures Valid(Put(l, capacity, ttl, key, response, now), capacity)
  {
    var e := Entry(key, response, now + ttl);
    WithoutDistinct(l, key);
    WithoutMembers(l, key);
    if Has(l, key) {
      ConsDistinct(e, Without(l, key));
    } else {
      var kept := if |l| == capacity then l[..|l| - 1] else l;
      assert forall i :: 0 <= i < |kept| ==> kept[i] == l[i];
      ConsDistinct(e, kept);
    }
  }

  /**
   * Looking up after a lookup or a store: the touched key changes as the operation says, every other key
   * keeps its entry, except that a store of a new key into a full list loses the last one.
   */
  lemma LookupAfterGet(l: List, capacity: nat, key: string, now: int, other: string)
    requires Valid(l, capacity)
    ensures var after := Lookup(Get(l, key, now).list, other);
            if other == key && Lookup(l, key).Some? && now >= Lookup(l, key).value.expires then after == None
            else after == Lookup(l, other)
  {
    GetKeepsValid(l, capacity, key, now);
    WithoutMembers(l, key);
    if other != key {
      SameEntry(l, Get(l, key, now).list, other);
    } else if Has(l, key) && now < Lookup(l, key).value.expires {
      LookupAt(Get(l, key, now).list, 0);
    }
  }

  lemma LookupAfterPut(l: List, capacity: nat, ttl: int, key: string, response: Response, now: int, other: string)
    requires capacity > 0 && Valid(l, capacity)
    ensures var after := Lookup(Put(l, capacity, ttl, key, response, now), other);
            if other == key then after == Some(Entry(key, response, now + ttl))
            else if !Has(l, key) && |l| == capacity && l[|l| - 1].key == other then after == None
            else after == Lookup(l, other)
  {
    var put := Put(l, capacity, ttl, key, response, now);
    PutKeepsValid(l, capacity, ttl, key, response, now);
    if other == key {
      LookupAt(put, 0);
    } else if Has(l, key) {
      WithoutMembers(l, key);
      SameEntry(l, put, other);
    } else if |l| == capacity {
      DropLastMembers(l);
      if l[|l| - 1].key == other {
        HasMeansIn(put);
      } else {
        SameEntry(l, put, other);
      }
    } else {
      SameEntry(l, put, other);
    }
  }

  lemma DropLastMembers(l: List)
    requires DistinctKeys(l) && l != []
    ensures forall e :: e in l[..|l| - 1] <==> e in l && e.key != l[|l| - 1].key
  {
    var kept := l[..|l| - 1];
    assert l == kept + [l[|l| - 1]];
    forall e | e in kept ensures e.key != l[|l| - 1].key {
      var i :| 0 <= i < |kept| && kept[i] == e;
      assert l[i] == e;
    }
  }

  /** Lists with distinct keys that agree on the entries of a key agree on its lookup. */
  lemma SameEntry(a: List, b: List, key: string)
    requires DistinctKeys(a) && DistinctKeys(b)
    requires forall e: Entry :: e.key == key ==> (e in a <==> e in b)
    ensures Lookup(a, key) == Lookup(b, key)
  {
    HasMeansIn(a);
    HasMeansIn(b);
    if Has(a, key) {
      var e := Lookup(a, key).value;
      var i :| 0 <= i < |b| && b[i] == e;
      LookupAt(b, i);
    }
  }
}
