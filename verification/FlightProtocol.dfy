/**
 * The part of the session protocol that concerns coalesced fetches: who leads a flight, who waits on it,
 * and where each waiter's answer is. Sessions and flights are numbered in order of creation.
 */
module FlightProtocol {
  import opened Coalescing

  /** What a session is to the flights: nothing, the leader before or after it took the waiters, or a waiter. */
  datatype Part =
    | Free
    | Leads(flight: nat)
    | Posts(flight: nat, waiters: seq<nat>)
    | Awaits(flight: nat)

  datatype Owner = Owner(key: string, leader: nat)

  /**
   * `boxes[i]` holds the flights of the deliveries posted to session `i` and not yet run; `current` names the
   * flight under each key of the coalescer's table; `owners` is every flight ever started.
   */
  datatype Table = Table(
    parts: seq<Part>, boxes: seq<seq<nat>>, flights: Flights<nat>, current: map<string, nat>, owners: seq<Owner>)

  predicate NoDuplicates(s: seq<nat>) {
    forall i, j :: 0 <= i < j < |s| ==> s[i] != s[j]
  }

  /** `w` waits on flight `f` and nothing has been posted to it. */
  predicate WaitsUnposted(t: Table, w: nat, f: nat) {
    w < |t.parts| && w < |t.boxes| && t.parts[w] == Awaits(f) && t.boxes[w] == []
  }

  /** A key of the table: its flight is led by the session that started it, and its waiters wait on it, once each. */
  ghost predicate KeyOk(t: Table, k: string)
    requires k in t.flights
  {
    && k in t.current
    && var f := t.current[k];
    && f < |t.owners| && t.owners[f].key == k && t.owners[f].leader < |t.parts|
    && t.parts[t.owners[f].leader] == Leads(f)
    && NoDuplicates(t.flights[k])
    && forall j :: 0 <= j < |t.flights[k]| ==> WaitsUnposted(t, t.flights[k][j], f)
  }

  /** Whether waiter `i` of flight `f` is still in the table under the flight's key. */
  predicate InTable(t: Table, i: nat, f: nat)
    requires f < |t.owners|
  {
    var k := t.owners[f].key;
    k in t.flights && k in t.current && t.current[k] == f && i in t.flights[k]
  }

  /** Whether waiter `i` of flight `f` is among those its leader has taken out and not posted to yet. */
  predicate InHand(t: Table, i: nat, f: nat)
    requires f < |t.owners|
  {
    var l := t.owners[f].leader;
    l < |t.parts| && t.parts[l].Posts? && t.parts[l].flight == f && i in t.parts[l].waiters
  }

  ghost predicate PartOk(t: Table, i: nat)
    requires i < |t.parts| == |t.boxes|
  {
    match t.parts[i]
    case Free => t.boxes[i] == []
    case Leads(f) =>
      && t.boxes[i] == []
      && f < |t.owners| && t.owners[f].leader == i
      && t.owners[f].key in t.flights && t.owners[f].key in t.current && t.current[t.owners[f].key] == f
    case Posts(f, ws) =>
      && t.boxes[i] == []
      && f < |t.owners| && t.owners[f].leader == i
      && NoDuplicates(ws)
      && forall j :: 0 <= j < |ws| ==> WaitsUnposted(t, ws[j], f)
    case Awaits(f) =>
      && f < |t.owners|
      && (t.boxes[i] == [] ==> InTable(t, i, f) || InHand(t, i, f))
      && (t.boxes[i] != [] ==> t.boxes[i] == [f])
  }

  ghost predicate Inv(t: Table) {
    && |t.boxes| == |t.parts|
    && t.current.Keys == t.flights.Keys
    && (forall k :: k in t.flights ==> KeyOk(t, k))
    && (forall i :: 0 <= i < |t.parts| ==> PartOk(t, i))
  }

  // ---------- Steps ----------

  function Accept(t: Table): Table {
    t.(parts := t.parts + [Free], boxes := t.boxes + [[]])
  }

  /** `join_or_start` on an absent key. */
  function Lead(t: Table, i: nat, key: string): Table
    requires i < |t.parts|
  {
    t.(flights := Joined(t.flights, key, i), current := t.current[key := |t.owners|],
       owners := t.owners + [Owner(key, i)], parts := t.parts[i := Leads(|t.owners|)])
  }

  /** `join_or_start` on a key in flight. */
  function Follow(t: Table, i: nat, key: string): Table
    requires i < |t.parts| && key in t.current
  {
    t.(flights := Joined(t.flights, key, i), parts := t.parts[i := Awaits(t.current[key])])
  }

  /** The locked part of `complete`: the key goes and its waiters are taken out. */
  function Close(t: Table, i: nat, f: nat, key: string): Table
    requires i < |t.parts|
  {
    t.(flights := t.flights - {key}, current := t.current - {key}, parts := t.parts[i := Posts(f, Released(t.flights, key))])
  }

  /** One call of a waiter: its delivery is posted to its session. */
  function Post(t: Table, i: nat): Table
    requires i < |t.parts| && t.parts[i].Posts? && t.parts[i].waiters != [] && t.parts[i].waiters[0] < |t.boxes|
  {
    var f, ws := t.parts[i].flight, t.parts[i].waiters;
    t.(parts := t.parts[i := Posts(f, ws[1..])], boxes := t.boxes[ws[0] := t.boxes[ws[0]] + [f]])
  }

  /** The loop over the waiters ends. */
  function Finish(t: Table, i: nat): Table
    requires i < |t.parts|
  {
    t.(parts := t.parts[i := Free])
  }

  /** A posted delivery runs on its session. */
  function Take(t: Table, i: nat): Table
    requires i < |t.parts| && i < |t.boxes| && t.boxes[i] != []
  {
    t.(parts := t.parts[i := Free], boxes := t.boxes[i := t.boxes[i][1..]])
  }

  // ---------- Every step keeps the invariant ----------

  lemma AcceptKeeps(t: Table)
    requires Inv(t)
    ensures Inv(Accept(t))
  {
    var u := Accept(t);
    forall k | k in u.flights ensures KeyOk(u, k) {
      assert KeyOk(t, k);
    }
    forall i | 0 <= i < |u.parts| ensures PartOk(u, i) {
      if i < |t.parts| {
        assert PartOk(t, i);
      }
    }
  }

  lemma LeadKeepsKey(t: Table, i: nat, key: string, k: string)
    requires Inv(t) && i < |t.parts| && t.parts[i] == Free && key !in t.flights && (k == key || k in t.flights)
    ensures KeyOk(Lead(t, i, key), k)
  {
    if k != key {
      assert KeyOk(t, k);
    }
  }

  lemma LeadKeeps(t: Table, i: nat, key: string)
    requires Inv(t) && i < |t.parts| && t.parts[i] == Free && key !in t.flights
    ensures Inv(Lead(t, i, key))
  {
    var u := Lead(t, i, key);
    forall k | k in u.flights ensures KeyOk(u, k) {
      LeadKeepsKey(t, i, key, k);
    }
    forall j | 0 <= j < |u.parts| ensures PartOk(u, j) {
      assert PartOk(t, j);
    }
  }

  lemma FollowKeepsKey(t: Table, i: nat, key: string, k: string)
    requires Inv(t) && i < |t.parts| && t.parts[i] == Free && key in t.flights && k in t.flights
    ensures KeyOk(Follow(t, i, key), k)
  {
    var u := Follow(t, i, key);
    assert KeyOk(t, k) && PartOk(t, i);
    assert i !in t.flights[k];
    if k == key {
      forall j | 0 <= j < |u.flights[k]| ensures WaitsUnposted(u, u.flights[k][j], u.current[k]) {
        if j < |t.flights[k]| {
          assert WaitsUnposted(t, t.flights[k][j], t.current[k]);
        }
      }
    } else {
      forall j | 0 <= j < |u.flights[k]| ensures WaitsUnposted(u, u.flights[k][j], u.current[k]) {
        assert WaitsUnposted(t, t.flights[k][j], t.current[k]);
      }
    }
  }

  lemma FollowKeeps(t: Table, i: nat, key: string)
    requires Inv(t) && i < |t.parts| && t.parts[i] == Free && key in t.flights
    ensures Inv(Follow(t, i, key))
  {
    var u := Follow(t, i, key);
    assert KeyOk(t, key) && PartOk(t, i);
    forall k | k in u.flights ensures KeyOk(u, k) {
      FollowKeepsKey(t, i, key, k);
    }
    forall j | 0 <= j < |u.parts| ensures PartOk(u, j) {
      assert PartOk(t, j);
      if j == i {
        assert u.flights[key][|t.flights[key]|] == i;
      } else if t.parts[j].Awaits? && t.boxes[j] == [] && InTable(t, j, t.parts[j].flight) {
        var k := t.owners[t.parts[j].flight].key;
        var n :| 0 <= n < |t.flights[k]| && t.flights[k][n] == j;
        assert u.flights[k][n] == j;
      }
    }
  }

  lemma CloseKeepsKey(t: Table, i: nat, f: nat, k: string)
    requires Inv(t) && i < |t.parts| && t.parts[i] == Leads(f) && f < |t.owners| && k in t.flights && k != t.owners[f].key
    ensures KeyOk(Close(t, i, f, t.owners[f].key), k)
  {
    assert PartOk(t, i) && KeyOk(t, k);
  }

  lemma CloseKeeps(t: Table, i: nat, f: nat)
    requires Inv(t) && i < |t.parts| && t.parts[i] == Leads(f)
    ensures f < |t.owners| && Inv(Close(t, i, f, t.owners[f].key))
  {
    assert PartOk(t, i);
    var key := t.owners[f].key;
    var u := Close(t, i, f, key);
    assert KeyOk(t, key);
    forall k | k in u.flights ensures KeyOk(u, k) {
      CloseKeepsKey(t, i, f, k);
    }
    forall j | 0 <= j < |u.parts| ensures PartOk(u, j) {
      assert PartOk(t, j);
    }
  }

  lemma PostKeepsKeys(t: Table, i: nat)
    requires Inv(t) && i < |t.parts| && t.parts[i].Posts? && t.parts[i].waiters != []
    ensures t.parts[i].waiters[0] < |t.boxes| && forall k :: k in t.flights ==> KeyOk(Post(t, i), k)
  {
    assert PartOk(t, i);
    var f, w := t.parts[i].flight, t.parts[i].waiters[0];
    assert WaitsUnposted(t, w, f);
    var u := Post(t, i);
    forall k | k in t.flights ensures KeyOk(u, k) {
      assert KeyOk(t, k);
      forall j | 0 <= j < |u.flights[k]| ensures WaitsUnposted(u, u.flights[k][j], u.current[k]) {
        assert WaitsUnposted(t, t.flights[k][j], t.current[k]);
      }
    }
  }

  lemma PostKeepsPart(t: Table, i: nat, j: nat)
    requires Inv(t) && i < |t.parts| && t.parts[i].Posts? && t.parts[i].waiters != [] && j < |t.parts|
    requires t.parts[i].waiters[0] < |t.boxes|
    ensures PartOk(Post(t, i), j)
  {
    assert PartOk(t, i) && PartOk(t, j);
    var f, ws := t.parts[i].flight, t.parts[i].waiters;
    assert WaitsUnposted(t, ws[0], f);
    var u := Post(t, i);
    if j == i {
      forall n | 0 <= n < |ws[1..]| ensures WaitsUnposted(u, ws[1..][n], f) {
        assert WaitsUnposted(t, ws[n + 1], f);
      }
    } else if t.parts[j].Posts? {
      forall n | 0 <= n < |t.parts[j].waiters| ensures WaitsUnposted(u, t.parts[j].waiters[n], t.parts[j].flight) {
        assert WaitsUnposted(t, t.parts[j].waiters[n], t.parts[j].flight);
      }
    } else if t.parts[j].Awaits? && j != ws[0] && t.boxes[j] == [] && InHand(t, j, t.parts[j].flight) {
      if t.owners[t.parts[j].flight].leader == i {
        var n :| 0 <= n < |ws| && ws[n] == j;
        assert ws[1..][n - 1] == j;
      }
    }
  }

  lemma PostKeeps(t: Table, i: nat)
    requires Inv(t) && i < |t.parts| && t.parts[i].Posts? && t.parts[i].waiters != []
    ensures t.parts[i].waiters[0] < |t.boxes| && Inv(Post(t, i))
  {
    PostKeepsKeys(t, i);
    forall j | 0 <= j < |t.parts| ensures PartOk(Post(t, i), j) {
      PostKeepsPart(t, i, j);
    }
  }

  lemma FinishKeeps(t: Table, i: nat)
    requires Inv(t) && i < |t.parts| && t.parts[i].Posts? && t.parts[i].waiters == []
    ensures Inv(Finish(t, i))
  {
    var u := Finish(t, i);
    assert PartOk(t, i);
    forall k | k in u.flights ensures KeyOk(u, k) {
      assert KeyOk(t, k);
    }
    forall j | 0 <= j < |u.parts| ensures PartOk(u, j) {
      assert PartOk(t, j);
    }
  }

  lemma TakeKeeps(t: Table, i: nat)
    requires Inv(t) && i < |t.parts| && t.parts[i].Awaits? && t.boxes[i] != []
    ensures Inv(Take(t, i))
  {
    var u := Take(t, i);
    assert PartOk(t, i);
    forall k | k in u.flights ensures KeyOk(u, k) {
      assert KeyOk(t, k);
    }
    forall j | 0 <= j < |u.parts| ensures PartOk(u, j) {
      assert PartOk(t, j);
    }
  }

  // ---------- The protocol ----------

  datatype Action =
    | AcceptAction
    | LeadAction(session: nat, key: string)
    | FollowAction(session: nat, key: string)
    | CloseAction(session: nat)
    | PostAction(session: nat)
    | FinishAction(session: nat)
    | TakeAction(session: nat)

  predicate Enabled(t: Table, a: Action) {
    match a
    case AcceptAction => true
    case LeadAction(i, key) => i < |t.parts| && t.parts[i] == Free && key !in t.flights
    case FollowAction(i, key) => i < |t.parts| && t.parts[i] == Free && key in t.flights && key in t.current
    case CloseAction(i) => i < |t.parts| && t.parts[i].Leads? && t.parts[i].flight < |t.owners|
    case PostAction(i) =>
      i < |t.parts| && t.parts[i].Posts? && t.parts[i].waiters != [] && t.parts[i].waiters[0] < |t.boxes|
    case FinishAction(i) => i < |t.parts| && t.parts[i].Posts? && t.parts[i].waiters == []
    case TakeAction(i) => i < |t.parts| && i < |t.boxes| && t.parts[i].Awaits? && t.boxes[i] != []
  }

  function Apply(t: Table, a: Action): Table
    requires Enabled(t, a)
  {
    match a
    case AcceptAction => Accept(t)
    case LeadAction(i, key) => Lead(t, i, key)
    case FollowAction(i, key) => Follow(t, i, key)
    case CloseAction(i) => Close(t, i, t.parts[i].flight, t.owners[t.parts[i].flight].key)
    case PostAction(i) => Post(t, i)
    case FinishAction(i) => Finish(t, i)
    case TakeAction(i) => Take(t, i)
  }

  lemma StepKeeps(t: Table, a: Action)
    requires Inv(t) && Enabled(t, a)
    ensures Inv(Apply(t, a))
  {
    match a
    case AcceptAction => AcceptKeeps(t);
    case LeadAction(i, key) => LeadKeeps(t, i, key);
    case FollowAction(i, key) => FollowKeeps(t, i, key);
    case CloseAction(i) => CloseKeeps(t, i, t.parts[i].flight);
    case PostAction(i) => PostKeeps(t, i);
    case FinishAction(i) => FinishKeeps(t, i);
    case TakeAction(i) => TakeKeeps(t, i);
  }

  // ---------- What the invariant says ----------

  /** A waiter is in exactly one place, once: the table, its leader's hand, or its own inbox. */
  ghost predicate WaiterPlaced(t: Table, i: nat)
    requires i < |t.parts| == |t.boxes| && t.parts[i].Awaits?
  {
    var f := t.parts[i].flight;
    && f < |t.owners|
    && (InTable(t, i, f) || InHand(t, i, f) || t.boxes[i] == [f])
    && !(InTable(t, i, f) && InHand(t, i, f))
    && (t.boxes[i] != [] ==> !InTable(t, i, f) && !InHand(t, i, f))
    && (forall k :: k in t.flights ==> multiset(t.flights[k])[i] == if InTable(t, i, f) && k == t.owners[f].key then 1 else 0)
    && (forall j :: 0 <= j < |t.parts| && t.parts[j].Posts? ==>
          multiset(t.parts[j].waiters)[i] == if InHand(t, i, f) && j == t.owners[f].leader then 1 else 0)
  }

  lemma {:induction false} CountOnce(s: seq<nat>, x: nat)
    requires NoDuplicates(s)
    ensures multiset(s)[x] == if x in s then 1 else 0
  {
    if s != [] {
      var n := |s| - 1;
      assert s == s[..n] + [s[n]];
      CountOnce(s[..n], x);
    }
  }

  lemma WaiterInOnePlace(t: Table, i: nat)
    requires Inv(t) && i < |t.parts| && t.parts[i].Awaits?
    ensures WaiterPlaced(t, i)
  {
    assert PartOk(t, i);
    var f := t.parts[i].flight;
    if InTable(t, i, f) {
      assert KeyOk(t, t.owners[f].key);
      NotPostedIfInTable(t, i);
    }
    if InHand(t, i, f) {
      assert PartOk(t, t.owners[f].leader);
    }
    forall k | k in t.flights
      ensures multiset(t.flights[k])[i] == if InTable(t, i, f) && k == t.owners[f].key then 1 else 0
    {
      assert KeyOk(t, k);
      CountOnce(t.flights[k], i);
    }
    forall j | 0 <= j < |t.parts| && t.parts[j].Posts?
      ensures multiset(t.parts[j].waiters)[i] == if InHand(t, i, f) && j == t.owners[f].leader then 1 else 0
    {
      assert PartOk(t, j);
      CountOnce(t.parts[j].waiters, i);
    }
  }

  lemma NotPostedIfInTable(t: Table, i: nat)
    requires Inv(t) && i < |t.parts| && t.parts[i].Awaits? && t.parts[i].flight < |t.owners|
    requires InTable(t, i, t.parts[i].flight)
    ensures t.boxes[i] == []
  {
    var k := t.owners[t.parts[i].flight].key;
    assert KeyOk(t, k);
    var n :| 0 <= n < |t.flights[k]| && t.flights[k][n] == i;
    assert WaitsUnposted(t, t.flights[k][n], t.current[k]);
  }

  /** A waiter with nothing posted has a leader still at work on its flight. */
  lemma WaiterHasLeader(t: Table, i: nat) returns (leader: nat)
    requires Inv(t) && i < |t.parts| && t.parts[i].Awaits? && t.boxes[i] == []
    ensures leader < |t.parts| && (t.parts[leader].Leads? || t.parts[leader].Posts?)
    ensures t.parts[leader].flight == t.parts[i].flight
  {
    assert PartOk(t, i);
    var f := t.parts[i].flight;
    leader := t.owners[f].leader;
    if InTable(t, i, f) {
      assert KeyOk(t, t.owners[f].key);
    }
  }
}
