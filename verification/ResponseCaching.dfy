/** The response cache as it is built: a recency list of nodes, and a map of entries that store their node. */
module ResponseCaching {
  import opened Http
  import opened RecencyList

  /** A list node; a reference to it is the stable position that an entry stores. */
  class Node {
    const key: string

    constructor (key: string)
      ensures this.key == key
    {
      this.key := key;
    }
  }

  datatype Slot = Slot(response: Response, expiresAt: int, position: Node)

  function PositionOf(lru: seq<Node>, node: Node): (i: nat)
    requires node in lru
    ensures i < |lru| && lru[i] == node
  {
    if lru[0] == node then 0 else 1 + PositionOf(lru[1..], node)
  }

  /** `list::erase(position)`. */
  function Unlink(lru: seq<Node>, node: Node): seq<Node>
    requires node in lru
  {
    var i := PositionOf(lru, node);
    lru[..i] + lru[i + 1..]
  }

  /** List and map hold the same keys once each, and every stored position is the node of its own key. */
  ghost predicate Coherent(lru: seq<Node>, entries: map<string, Slot>) {
    && (forall i, j :: 0 <= i < j < |lru| ==> lru[i].key != lru[j].key)
    && (forall i :: 0 <= i < |lru| ==> lru[i].key in entries && entries[lru[i].key].position == lru[i])
    && (forall k :: k in entries ==> entries[k].position in lru && entries[k].position.key == k)
  }

  ghost function ViewOf(lru: seq<Node>, entries: map<string, Slot>): (l: List)
    requires Coherent(lru, entries)
    ensures |l| == |lru| && DistinctKeys(l)
  {
    seq(|lru|, i requires 0 <= i < |lru| =>
      Entry(lru[i].key, entries[lru[i].key].response, entries[lru[i].key].expiresAt))
  }

  lemma ViewMeans(lru: seq<Node>, entries: map<string, Slot>, key: string)
    requires Coherent(lru, entries)
    ensures Has(ViewOf(lru, entries), key) <==> key in entries
    ensures key in entries ==>
              Lookup(ViewOf(lru, entries), key) == Some(Entry(key, entries[key].response, entries[key].expiresAt))
  {
    if key in entries {
      var i := PositionOf(lru, entries[key].position);
      assert ViewOf(lru, entries)[i].key == key;
      LookupAt(ViewOf(lru, entries), i);
    }
  }

  lemma UnlinkCoherent(lru: seq<Node>, entries: map<string, Slot>, key: string)
    requires Coherent(lru, entries) && key in entries
    ensures Coherent(Unlink(lru, entries[key].position), entries - {key})
  {
    var i := PositionOf(lru, entries[key].position);
    var rest, fewer := Unlink(lru, entries[key].position), entries - {key};
    assert forall j :: 0 <= j < |rest| ==> rest[j] == lru[if j < i then j else j + 1];
    forall k | k in fewer ensures fewer[k].position in rest {
      var j := PositionOf(lru, entries[k].position);
      assert rest[if j < i then j else j - 1] == lru[j];
    }
  }

  /** Unlinking an entry's node and dropping the entry. */
  lemma UnlinkView(lru: seq<Node>, entries: map<string, Slot>, key: string)
    requires Coherent(lru, entries) && key in entries
    ensures Coherent(Unlink(lru, entries[key].position), entries - {key})
    ensures ViewOf(Unlink(lru, entries[key].position), entries - {key}) == Without(ViewOf(lru, entries), key)
  {
    UnlinkCoherent(lru, entries, key);
    var i := PositionOf(lru, entries[key].position);
    var before := ViewOf(lru, entries);
    assert before[i].key == key;
    WithoutAt(before, i);
    UnlinkEntries(lru, entries, key);
  }

  lemma UnlinkEntries(lru: seq<Node>, entries: map<string, Slot>, key: string)
    requires Coherent(lru, entries) && key in entries
    requires Coherent(Unlink(lru, entries[key].position), entries - {key})
    ensures var i, before := PositionOf(lru, entries[key].position), ViewOf(lru, entries);
            ViewOf(Unlink(lru, entries[key].position), entries - {key}) == before[..i] + before[i + 1..]
  {
    var i, before := PositionOf(lru, entries[key].position), ViewOf(lru, entries);
    var rest := Unlink(lru, entries[key].position);
    var after := ViewOf(rest, entries - {key});
    forall j | 0 <= j < |rest| ensures after[j] == (before[..i] + before[i + 1..])[j] {
      assert rest[j] == lru[if j < i then j else j + 1];
    }
  }

  lemma LinkCoherent(lru: seq<Node>, entries: map<string, Slot>, slot: Slot)
    requires Coherent(lru, entries) && slot.position.key !in entries
    ensures Coherent([slot.position] + lru, entries[slot.position.key := slot])
  {
    var longer, more := [slot.position] + lru, entries[slot.position.key := slot];
    assert forall j :: 0 < j < |longer| ==> longer[j] == lru[j - 1];
  }

  /** Linking a node at the front with its entry. */
  lemma LinkView(lru: seq<Node>, entries: map<string, Slot>, slot: Slot)
    requires Coherent(lru, entries) && slot.position.key !in entries
    ensures Coherent([slot.position] + lru, entries[slot.position.key := slot])
    ensures ViewOf([slot.position] + lru, entries[slot.position.key := slot])
            == [Entry(slot.position.key, slot.response, slot.expiresAt)] + ViewOf(lru, entries)
  {
    LinkCoherent(lru, entries, slot);
  }

  /** Splicing an entry's node to the front while its entry becomes `slot`. */
  lemma SpliceView(lru: seq<Node>, entries: map<string, Slot>, key: string, slot: Slot)
    requires Coherent(lru, entries) && key in entries && slot.position == entries[key].position
    ensures Coherent([slot.position] + Unlink(lru, slot.position), entries[key := slot])
    ensures ViewOf([slot.position] + Unlink(lru, slot.position), entries[key := slot])
            == [Entry(key, slot.response, slot.expiresAt)] + Without(ViewOf(lru, entries), key)
  {
    UnlinkView(lru, entries, key);
    LinkView(Unlink(lru, slot.position), entries - {key}, slot);
    assert (entries - {key})[key := slot] == entries[key := slot];
  }

  lemma {:induction false} PositionUnique(lru: seq<Node>, i: nat)
    requires i < |lru| && forall j, k :: 0 <= j < k < |lru| ==> lru[j] != lru[k]
    ensures PositionOf(lru, lru[i]) == i
  {
  }

  lemma PopCoherent(lru: seq<Node>, entries: map<string, Slot>)
    requires Coherent(lru, entries) && lru != []
    ensures Coherent(lru[..|lru| - 1], entries - {lru[|lru| - 1].key})
  {
    PopView(lru, entries);
  }

  /** Popping the last node with its entry. */
  lemma PopView(lru: seq<Node>, entries: map<string, Slot>)
    requires Coherent(lru, entries) && lru != []
    ensures var n := |lru| - 1;
            && Coherent(lru[..n], entries - {lru[n].key})
            && ViewOf(lru[..n], entries - {lru[n].key}) == ViewOf(lru, entries)[..n]
  {
    var n := |lru| - 1;
    PositionUnique(lru, n);
    assert Unlink(lru, lru[n]) == lru[..n];
    UnlinkView(lru, entries, lru[n].key);
    WithoutAt(ViewOf(lru, entries), n);
  }

  lemma {:induction false} CountKeys(lru: seq<Node>, entries: map<string, Slot>)
    requires Coherent(lru, entries)
    ensures |entries| == |lru|
  {
    if lru == [] {
      assert forall k :: k !in entries;
    } else {
      var n := |lru| - 1;
      PopCoherent(lru, entries);
      CountKeys(lru[..n], entries - {lru[n].key});
      CountWithout(entries, lru[n].key);
    }
  }

  lemma CountWithout(entries: map<string, Slot>, key: string)
    requires key in entries
    ensures |entries| == |entries - {key}| + 1
  {
    assert (entries - {key}).Keys == entries.Keys - {key};
  }

  class ResponseCache {
    const capacity: nat
    const ttl: int
    var lru: seq<Node>
    var entries: map<string, Slot>

    ghost predicate Valid()
      reads this
    {
      0 < capacity && |lru| <= capacity && Coherent(lru, entries)
    }

    ghost function View(): (l: List)
      requires Valid()
      reads this
      ensures RecencyList.Valid(l, capacity)
    {
      ViewOf(lru, entries)
    }

    constructor (capacity: nat, ttl: int)
      requires capacity > 0
      ensures Valid() && View() == []
      ensures this.capacity == capacity && this.ttl == ttl
    {
      this.capacity := capacity;
      this.ttl := ttl;
      lru := [];
      entries := map[];
    }

    method Get(key: string, now: int) returns (r: Option<Response>)
      requires Valid()
      modifies this
      ensures Valid()
      ensures r == RecencyList.Get(old(View()), key, now).result
      ensures View() == RecencyList.Get(old(View()), key, now).list
    {
      ViewMeans(lru, entries, key);
      if key !in entries {
        return None;
      }
      var slot := entries[key];
      if now >= slot.expiresAt {
        UnlinkView(lru, entries, key);
        lru := Unlink(lru, slot.position);
        entries := entries - {key};
        return None;
      }
      SpliceView(lru, entries, key, slot);
      assert entries[key := slot] == entries;
      lru := [slot.position] + Unlink(lru, slot.position);
      return Some(slot.response);
    }

    method Put(key: string, response: Response, now: int)
      requires Valid()
      modifies this
      ensures Valid()
      ensures View() == RecencyList.Put(old(View()), capacity, ttl, key, response, now)
    {
      ViewMeans(lru, entries, key);
      var expiresAt := now + ttl;
      if key in entries {
        var slot := Slot(response, expiresAt, entries[key].position);
        SpliceView(lru, entries, key, slot);
        entries := entries[key := slot];
        lru := [slot.position] + Unlink(lru, slot.position);
        return;
      }
      Insert(key, response, expiresAt);
    }

    method Insert(key: string, response: Response, expiresAt: int)
      requires Valid() && key !in entries
      modifies this
      ensures Valid()
      ensures var before, e := old(View()), Entry(key, response, expiresAt);
              View() == [e] + if |before| == capacity then before[..|before| - 1] else before
    {
      CountKeys(lru, entries);
      if |entries| == capacity {
        EvictLast();
      }
      var node := new Node(key);
      var slot := Slot(response, expiresAt, node);
      LinkView(lru, entries, slot);
      lru := [node] + lru;
      entries := entries[key := slot];
    }

    method EvictLast()
      requires Valid() && lru != []
      modifies this
      ensures Valid() && View() == old(View())[..|old(View())| - 1]
      ensures entries.Keys < old(entries.Keys)
    {
      PopView(lru, entries);
      var last := lru[|lru| - 1].key;
      entries := entries - {last};
      lru := lru[..|lru| - 1];
      assert last !in entries;
    }

    method Size() returns (n: nat)
      requires Valid()
      ensures n == |View()| && n <= capacity
    {
      CountKeys(lru, entries);
      n := |entries|;
    }
  }

  /** The constructor's guard: a cache with room for nothing is refused. */
  method MakeCache(capacity: nat, ttl: int) returns (cache: ResponseCache?)
    ensures cache == null <==> capacity == 0
    ensures cache != null ==>
              fresh(cache) && cache.Valid() && cache.View() == [] && cache.capacity == capacity && cache.ttl == ttl
  {
    if capacity == 0 {
      return null;
    }
    cache := new ResponseCache(capacity, ttl);
  }
}
