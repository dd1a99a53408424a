/** The table of fetches in flight and of those waiting on them. */
module Coalescing {
  import opened Http

  datatype Role = Leader | Follower

  type Flights<W> = map<string, seq<W>>

  /** The table after a join: a new key gets an empty flight, a known one gets the waiter at its end. */
  function Joined<W>(flights: Flights<W>, key: string, waiter: W): Flights<W> {
    if key in flights then flights[key := flights[key] + [waiter]] else flights[key := []]
  }

  function RoleOf<W>(flights: Flights<W>, key: string): Role {
    if key in flights then Follower else Leader
  }

  /** Who is called when a key completes, in the order they joined. */
  function Released<W>(flights: Flights<W>, key: string): seq<W> {
    if key in flights then flights[key] else []
  }

  // ---------- Whole runs ----------

  datatype TableOp<W> = JoinOp(key: string, waiter: W) | CompleteOp(key: string)

  /** The table after a run from the empty one. */
  function TableAfter<W>(ops: seq<TableOp<W>>): Flights<W> {
    if ops == [] then map[]
    else
      var before, op := TableAfter(ops[..|ops| - 1]), ops[|ops| - 1];
      match op
      case JoinOp(key, waiter) => Joined(before, key, waiter)
      case CompleteOp(key) => before - {key}
  }

  /** Who has joined a key since it last completed, in order. */
  function JoinedSince<W>(ops: seq<TableOp<W>>, key: string): seq<W> {
    if ops == [] then []
    else
      var before, op := ops[..|ops| - 1], ops[|ops| - 1];
      if op.key != key then JoinedSince(before, key)
      else if op.CompleteOp? then []
      else JoinedSince(before, key) + [op.waiter]
  }

  /** In every run a key is in flight exactly if someone joined it since its last completion; the first leads, the others wait in order. */
  lemma {:induction false} FirstLeadsOthersWait<W>(ops: seq<TableOp<W>>, key: string)
    ensures key in TableAfter(ops) <==> JoinedSince(ops, key) != []
    ensures key in TableAfter(ops) ==> TableAfter(ops)[key] == JoinedSince(ops, key)[1..]
  {
    if ops != [] {
      FirstLeadsOthersWait(ops[..|ops| - 1], key);
    }
  }

  class RequestCoalescer<W> {
    var flights: Flights<W>

    constructor ()
      ensures flights == map[]
    {
      flights := map[];
    }

    method JoinOrStart(key: string, waiter: W) returns (role: Role)
      modifies this
      ensures role == RoleOf(old(flights), key) && (role == Leader <==> key !in old(flights))
      ensures flights == Joined(old(flights), key, waiter)
    {
      if key !in flights {
        flights := flights[key := []];
        return Leader;
      }
      flights := flights[key := flights[key] + [waiter]];
      return Follower;
    }

    /** `calls` lists the waiter callbacks made, with the response each was given. */
    method Complete(key: string, response: Response) returns (calls: seq<(W, Response)>)
      modifies this
      ensures flights == old(flights) - {key}
      ensures |calls| == |Released(old(flights), key)|
      ensures forall i :: 0 <= i < |calls| ==> calls[i] == (Released(old(flights), key)[i], response)
      ensures if key in old(flights) then
                |calls| == |old(flights)[key]| && forall i :: 0 <= i < |calls| ==> calls[i].0 == old(flights)[key][i]
              else calls == []
    {
      calls := [];
      if key !in flights {
        return;
      }
      var waiters := flights[key];
      flights := flights - {key};
      for i := 0 to |waiters|
        invariant |calls| == i && flights == old(flights) - {key}
        invariant forall j :: 0 <= j < i ==> calls[j] == (waiters[j], response)
      {
        calls := calls + [(waiters[i], response)];
      }
    }

    method WaiterCount(key: string) returns (n: nat)
      ensures n == |Released(flights, key)|
    {
      n := if key in flights then |flights[key]| else 0;
    }
  }
}
