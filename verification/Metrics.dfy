/** Counters and the in-flight gauge. */
module Metrics {
  import opened Http
  import opened Endpoints

  /** What has happened, counted without bound. */
  datatype Tally = Tally(
    requests: nat, health: nat, scrapes: nat, proxied: nat,
    hits: nat, misses: nat, leaders: nat, waiters: nat,
    badGateway: nat, unavailable: nat, gatewayTimeout: nat,
    inFlight: int, durations: nat,
    selections: seq<nat>)

  function EmptyTally(upstreams: nat): Tally {
    Tally(0, 0, 0, 0, 0, 0, 0, 0, 0, 0, 0, 0, 0, seq(upstreams, i => 0))
  }

  function CountStatus(t: Tally, status: nat): Tally {
    if status == 502 then t.(badGateway := t.badGateway + 1)
    else if status == 503 then t.(unavailable := t.unavailable + 1)
    else if status == 504 then t.(gatewayTimeout := t.gatewayTimeout + 1)
    else t
  }

  function Labels(endpoints: seq<Endpoint>): (labels: seq<string>)
    ensures |labels| == |endpoints|
    ensures forall i :: 0 <= i < |labels| ==> labels[i] == Label(endpoints[i])
  {
    seq(|endpoints|, i requires 0 <= i < |endpoints| => Label(endpoints[i]))
  }

  /** The first label equal to `name`. */
  function FirstLabel(labels: seq<string>, name: string): (r: Option<nat>)
    ensures r.Some? <==> name in labels
    ensures r.Some? ==> r.value < |labels| && labels[r.value] == name
    ensures r.Some? ==> forall j :: 0 <= j < r.value ==> labels[j] != name
  {
    if labels == [] then None
    else if labels[0] == name then Some(0)
    else match FirstLabel(labels[1..], name) case None => None case Some(i) => Some(i + 1)
  }

  function CountSelection(t: Tally, labels: seq<string>, name: string): (u: Tally)
    requires |t.selections| == |labels|
    ensures |u.selections| == |labels|
  {
    match FirstLabel(labels, name)
    case None => t
    case Some(i) => t.(selections := t.selections[i := t.selections[i] + 1])
  }

  /** A selection of backend `i` is counted under the first backend with the same endpoint; its own, when endpoints differ. */
  lemma SelectionFindsItsEndpoint(endpoints: seq<Endpoint>, i: nat)
    requires i < |endpoints|
    ensures FirstLabel(Labels(endpoints), Label(endpoints[i])).Some?
    ensures endpoints[FirstLabel(Labels(endpoints), Label(endpoints[i])).value] == endpoints[i]
    ensures (forall j, k :: 0 <= j < k < |endpoints| ==> endpoints[j] != endpoints[k]) ==>
              FirstLabel(Labels(endpoints), Label(endpoints[i])) == Some(i)
  {
    assert Labels(endpoints)[i] == Label(endpoints[i]);
    var j := FirstLabel(Labels(endpoints), Label(endpoints[i])).value;
    LabelInjective(endpoints[j], endpoints[i]);
  }

  // ---------- The registry's 64-bit cells ----------

  const MODULUS := 0x1_0000_0000_0000_0000

  type Cell = x: int | 0 <= x < MODULUS

  /** What a cell that started at zero shows after a net change of `n`. */
  function Reading(n: int): Cell {
    n % MODULUS
  }

  /** `fetch_add(1)`. */
  function Raise(x: Cell): Cell {
    if x == MODULUS - 1 then 0 else x + 1
  }

  /** `fetch_sub(1)`. */
  function Drop(x: Cell): Cell {
    if x == 0 then MODULUS - 1 else x - 1
  }

  lemma ReadingMoves(n: int)
    ensures Raise(Reading(n)) == Reading(n + 1)
    ensures Drop(Reading(n)) == Reading(n - 1)
  {
  }

  /** A gauge shows its true value exactly while that value neither goes below zero nor reaches the modulus. */
  lemma GaugeIsTrue(n: int)
    ensures Reading(n) == n <==> 0 <= n < MODULUS
  {
  }

  class MetricsRegistry {
    const labels: seq<string>
    var badGateway: Cell
    var unavailable: Cell
    var gatewayTimeout: Cell
    var inFlight: Cell
    var selections: seq<Cell>
    var transitions: Cell
    ghost var tally: Tally
    /** How often a health flag has changed. */
    ghost var flips: nat

    ghost predicate Valid()
      reads this
    {
      && |selections| == |tally.selections| == |labels|
      && badGateway == Reading(tally.badGateway)
      && unavailable == Reading(tally.unavailable)
      && gatewayTimeout == Reading(tally.gatewayTimeout)
      && inFlight == Reading(tally.inFlight) && transitions == Reading(flips)
      && forall i :: 0 <= i < |selections| ==> selections[i] == Reading(tally.selections[i])
    }

    constructor (endpoints: seq<Endpoint>)
      ensures Valid() && labels == Labels(endpoints) && tally == EmptyTally(|endpoints|) && flips == 0
    {
      badGateway, unavailable, gatewayTimeout, inFlight, transitions, flips := 0, 0, 0, 0, 0, 0;
      labels := Labels(endpoints);
      selections := seq(|endpoints|, i => 0);
      tally := EmptyTally(|endpoints|);
    }

    method ProxyStarted()
      requires Valid()
      modifies this
      ensures Valid() && tally == old(tally).(inFlight := old(tally).inFlight + 1) && flips == old(flips)
    {
      ReadingMoves(tally.inFlight);
      inFlight := Raise(inFlight);
      tally := tally.(inFlight := tally.inFlight + 1);
    }

    method ProxyCompleted()
      requires Valid()
      modifies this
      ensures Valid() && tally == old(tally).(inFlight := old(tally).inFlight - 1) && flips == old(flips)
    {
      ReadingMoves(tally.inFlight);
      inFlight := Drop(inFlight);
      tally := tally.(inFlight := tally.inFlight - 1);
    }

    method RecordHealthTransition()
      requires Valid()
      modifies this
      ensures Valid() && tally == old(tally) && flips == old(flips) + 1
    {
      ReadingMoves(flips);
      transitions := Raise(transitions);
      flips := flips + 1;
    }

    method RecordResponseStatus(status: nat)
      requires Valid()
      modifies this
      ensures Valid() && tally == CountStatus(old(tally), status) && flips == old(flips)
    {
      if status == 502 {
        ReadingMoves(tally.badGateway);
        badGateway := Raise(badGateway);
      } else if status == 503 {
        ReadingMoves(tally.unavailable);
        unavailable := Raise(unavailable);
      } else if status == 504 {
        ReadingMoves(tally.gatewayTimeout);
        gatewayTimeout := Raise(gatewayTimeout);
      }
      tally := CountStatus(tally, status);
    }

    /** Only the first cell with this label moves. */
    method RecordUpstreamSelection(upstream: string)
      requires Valid()
      modifies this
      ensures Valid() && tally == CountSelection(old(tally), labels, upstream) && flips == old(flips)
    {
      for i := 0 to |labels|
        invariant Valid() && tally == old(tally) && flips == old(flips)
        invariant upstream !in labels[..i]
      {
        if labels[i] == upstream {
          FirstIs(labels, upstream, i);
          ReadingMoves(tally.selections[i]);
          selections := selections[i := Raise(selections[i])];
          tally := CountSelection(tally, labels, upstream);
          return;
        }
        assert labels[..i + 1] == labels[..i] + [labels[i]];
      }
      assert labels[..|labels|] == labels;
    }
  }

  lemma FirstIs(labels: seq<string>, name: string, i: nat)
    requires i < |labels| && labels[i] == name && name !in labels[..i]
    ensures FirstLabel(labels, name) == Some(i)
  {
    var j := FirstLabel(labels, name).value;
    assert forall k :: 0 <= k < i ==> labels[..i][k] == labels[k];
  }
}
