/** One fetch from an upstream: resolve, connect, write, read, and one completion. */
module Proxying {
  import opened Http
  import opened HopByHop
  import opened Endpoints

  const HOST := "Host"

  /** `fields::set`: one field of that name remains, at the end. */
  function SetField(headers: seq<Header>, name: string, value: string): seq<Header> {
    Erase(headers, name) + [Header(name, value)]
  }

  /** The request as it is sent upstream. */
  function Forwarded(q: Request, upstream: Endpoint): Request {
    var headers := SetField(EndToEnd(q.headers), HOST, HostHeader(upstream));
    q.(headers := SetField(headers, CONNECTION, "close"), version := 11, keepAlive := false)
  }

  /** What is asked upstream is what the client asked, as HTTP/1.1 on a connection to be closed. */
  lemma ForwardedRequest(q: Request, upstream: Endpoint)
    ensures var sent := Forwarded(q, upstream);
            && sent.verb == q.verb && sent.target == q.target && sent.body == q.body
            && sent.version == 11 && !sent.keepAlive
  {
  }

  /** Its header is the part of the client's that is passed on, without Host, with the upstream's Host and a closing Connection. */
  lemma ForwardedFields(q: Request, upstream: Endpoint) returns (kept: seq<Header>)
    ensures PassedOn(q.headers, kept, {"host"})
    ensures Forwarded(q, upstream).headers == kept + [Header(HOST, HostHeader(upstream)), Header(CONNECTION, "close")]
  {
    var but := {Http.Lower(HOST)};
    kept := Keep(q.headers, Nominated(q.headers) + FIXED + but);
    ForwardedHeader(q, upstream);
    KeepIsPassedOn(q.headers, but);
    HostIsLower();
  }

  lemma HostIsLower()
    ensures {Http.Lower(HOST)} == {"host"}
  {
    assert Http.Lower(HOST) == "host";
  }

  /** The forwarded header is the end-to-end part of the client's, in order, with the upstream's Host and a closing Connection. */
  lemma ForwardedHeader(q: Request, upstream: Endpoint)
    ensures Forwarded(q, upstream).headers
            == Keep(q.headers, Nominated(q.headers) + FIXED + {Http.Lower(HOST)})
               + [Header(HOST, HostHeader(upstream)), Header(CONNECTION, "close")]
  {
    var names := Nominated(q.headers) + FIXED;
    var kept := Keep(q.headers, names + {Http.Lower(HOST)});
    KeepTwice(q.headers, names, {Http.Lower(HOST)});
    var host := Header(HOST, HostHeader(upstream));
    assert Http.Lower(CONNECTION) == "connection";
    assert Http.Lower(HOST)[0] == 'h';
    KeepAppend(kept, [host], {Http.Lower(CONNECTION)});
    KeepTwice(q.headers, names + {Http.Lower(HOST)}, {Http.Lower(CONNECTION)});
    assert names + {Http.Lower(HOST)} + {Http.Lower(CONNECTION)} == names + {Http.Lower(HOST)};
    assert [host][1..] == [];
    assert Keep([host], {Http.Lower(CONNECTION)}) == [host];
  }

  lemma {:induction false} KeepAppend(a: seq<Header>, b: seq<Header>, names: set<string>)
    ensures Keep(a + b, names) == Keep(a, names) + Keep(b, names)
  {
    if a == [] {
      assert a + b == b;
    } else {
      KeepAppend(a[1..], b, names);
      assert (a + b)[1..] == a[1..] + b && (a + b)[0] == a[0];
      var first := if Http.Lower(a[0].name) in names then [] else [a[0]];
      assert first + (Keep(a[1..], names) + Keep(b, names)) == first + Keep(a[1..], names) + Keep(b, names);
    }
  }

  // ---------- The phases ----------

  datatype Error = NoError | TimedOut | Failed

  datatype Phase = Resolving | Connecting | Sending | Receiving

  /** The end of the pending operation: its error, and what was read if it was the last one. */
  datatype Event = Event(error: Error, response: Response)

  datatype Proxy =
    | Pending(phase: Phase, request: Request, clientVersion: nat, clientKeepAlive: bool)
    | Done(response: Response)

  function Start(q: Request, upstream: Endpoint): Proxy {
    Pending(Resolving, Forwarded(q, upstream), q.version, q.keepAlive)
  }

  /** The upstream's response as it is passed on. */
  function Returned(r: Response, version: nat, keepAlive: bool): Response {
    r.(headers := EndToEnd(r.headers), version := version, keepAlive := keepAlive)
  }

  /** `got` is what the upstream sent, field by field: status, body and the header fields passed on. */
  ghost predicate Relays(sent: Response, got: Response) {
    got.status == sent.status && got.body == sent.body && PassedOn(sent.headers, got.headers, {})
  }

  lemma ReturnedRelays(r: Response, version: nat, keepAlive: bool)
    ensures var got := Returned(r, version, keepAlive);
            Relays(r, got) && got.version == version && got.keepAlive == keepAlive
  {
    EndToEndIsPassedOn(r.headers);
  }

  function Failure(error: Error, forwarded: Request): Response {
    if error == TimedOut then GatewayTimeout(forwarded) else BadGateway(forwarded)
  }

  function OnEvent(p: Proxy, e: Event): Proxy
    requires p.Pending?
  {
    if e.error != NoError then Done(Failure(e.error, p.request))
    else match p.phase
      case Resolving => p.(phase := Connecting)
      case Connecting => p.(phase := Sending)
      case Sending => p.(phase := Receiving)
      case Receiving => Done(Returned(e.response, p.clientVersion, p.clientKeepAlive))
  }

  /** How far a fetch still has to go. */
  function Remaining(p: Proxy): nat {
    if p.Done? then 0
    else match p.phase
      case Resolving => 4
      case Connecting => 3
      case Sending => 2
      case Receiving => 1
  }

  /** The proxy after a sequence of events; nothing happens to one that is done. */
  function Drive(p: Proxy, events: seq<Event>): Proxy {
    if events == [] then p
    else
      var q := Drive(p, events[..|events| - 1]);
      if q.Done? then q else OnEvent(q, events[|events| - 1])
  }

  /** The first event that is an error. */
  function FirstFailure(events: seq<Event>): (r: Option<nat>)
    ensures r.Some? ==> r.value < |events| && events[r.value].error != NoError
    ensures r.Some? ==> forall i :: 0 <= i < r.value ==> events[i].error == NoError
    ensures r.None? ==> forall i :: 0 <= i < |events| ==> events[i].error == NoError
  {
    if events == [] then None
    else if events[0].error != NoError then Some(0)
    else match FirstFailure(events[1..]) case None => None case Some(i) => Some(i + 1)
  }

  /** What a fetch comes to, told by its first failure among four events. */
  function Outcome(q: Request, upstream: Endpoint, events: seq<Event>): Option<Response> {
    match FirstFailure(events)
    case Some(i) =>
      if i < 4 then Some(Failure(events[i].error, Forwarded(q, upstream)))
      else Some(Returned(events[3].response, q.version, q.keepAlive))
    case None =>
      if |events| >= 4 then Some(Returned(events[3].response, q.version, q.keepAlive)) else None
  }

  function PhaseAfter(n: nat): Phase
    requires n < 4
  {
    if n == 0 then Resolving else if n == 1 then Connecting else if n == 2 then Sending else Receiving
  }

  lemma FirstFailureSnoc(before: seq<Event>, e: Event)
    ensures FirstFailure(before + [e])
            == if FirstFailure(before).Some? then FirstFailure(before)
               else if e.error != NoError then Some(|before|) else None
  {
    var events, first := before + [e], FirstFailure(before);
    if first.Some? {
      FirstFailureIs(events, first.value);
    } else if e.error != NoError {
      FirstFailureIs(events, |before|);
    }
  }

  lemma FirstFailureIs(events: seq<Event>, i: nat)
    requires i < |events| && events[i].error != NoError
    requires forall j :: 0 <= j < i ==> events[j].error == NoError
    ensures FirstFailure(events) == Some(i)
  {
  }

  /** Every run: the fetch is done exactly when its outcome is settled, with that response, and until then one operation is pending. */
  lemma {:induction false} DriveMeetsOutcome(q: Request, upstream: Endpoint, events: seq<Event>)
    ensures var p := Drive(Start(q, upstream), events);
            match Outcome(q, upstream, events)
            case Some(r) => p == Done(r)
            case None =>
              |events| < 4 && p == Pending(PhaseAfter(|events|), Forwarded(q, upstream), q.version, q.keepAlive)
  {
    if events != [] {
      var n := |events| - 1;
      var before := events[..n];
      DriveMeetsOutcome(q, upstream, before);
      FirstFailureSnoc(before, events[n]);
      assert events == before + [events[n]];
      assert n >= 4 ==> before[3] == events[3];
      assert FirstFailure(before).Some? ==> before[FirstFailure(before).value] == events[FirstFailure(before).value];
    }
  }

  /** All four phases went well. */
  predicate Clean(events: seq<Event>) {
    |events| >= 4 && forall i :: 0 <= i < 4 ==> events[i].error == NoError
  }

  /**
   * The gateway status is 504 exactly when the first failing phase timed out, and 502 for any other first failure; a
   * fetch without failure brings what the upstream sent, with the client's version and keep-alive.
   */
  lemma StatusTellsFirstFailure(q: Request, upstream: Endpoint, events: seq<Event>)
    requires |events| >= 4
    ensures Drive(Start(q, upstream), events).Done?
    ensures var r, first := Drive(Start(q, upstream), events).response, FirstFailure(events);
            if first.Some? && first.value < 4 then r.status == if events[first.value].error == TimedOut then 504 else 502
            else Clean(events) && Relays(events[3].response, r) && Suits(r, q)
  {
    DriveMeetsOutcome(q, upstream, events);
    ReturnedRelays(events[3].response, q.version, q.keepAlive);
  }

  lemma EventsShorten(p: Proxy, e: Event)
    requires p.Pending?
    ensures Remaining(OnEvent(p, e)) < Remaining(p)
    ensures OnEvent(p, e).Pending? ==> Remaining(OnEvent(p, e)) == Remaining(p) - 1
  {
  }

  // ---------- The proxy as it is built ----------

  class UpstreamProxy {
    const upstream: Endpoint
    const clientVersion: nat
    const clientKeepAlive: bool
    var request: Request
    var completed: bool
    /** The asynchronous operation in progress. */
    var pending: Option<Phase>
    var hasHandler: bool
    /** The responses the completion handler has been called with. */
    var completions: seq<Response>

    /** One operation pending and no completion, or none pending and one completion. */
    ghost predicate Valid()
      reads this
    {
      if completed then pending.None? && !hasHandler && |completions| == 1
      else pending.Some? && hasHandler && completions == []
    }

    ghost function View(): Proxy
      requires Valid()
      reads this
    {
      if completed then Done(completions[0]) else Pending(pending.value, request, clientVersion, clientKeepAlive)
    }

    /** Construction followed by `run`. */
    constructor (upstream: Endpoint, request: Request)
      ensures Valid() && View() == Start(request, upstream)
      ensures this.request.verb == request.verb && this.request.target == request.target && this.request.body == request.body
    {
      this.upstream := upstream;
      clientVersion, clientKeepAlive := request.version, request.keepAlive;
      this.request := Forwarded(request, upstream);
      completed, hasHandler, completions := false, true, [];
      pending := Some(Resolving);
    }

    method OnResolve(error: Error)
      requires Valid() && pending == Some(Resolving)
      modifies this
      ensures Valid() && forall r :: View() == OnEvent(old(View()), Event(error, r))
    {
      pending := None;
      if error != NoError {
        Fail(error);
        return;
      }
      pending := Some(Connecting);
    }

    method OnConnect(error: Error)
      requires Valid() && pending == Some(Connecting)
      modifies this
      ensures Valid() && forall r :: View() == OnEvent(old(View()), Event(error, r))
    {
      pending := None;
      if error != NoError {
        Fail(error);
        return;
      }
      pending := Some(Sending);
    }

    method OnWrite(error: Error)
      requires Valid() && pending == Some(Sending)
      modifies this
      ensures Valid() && forall r :: View() == OnEvent(old(View()), Event(error, r))
    {
      pending := None;
      if error != NoError {
        Fail(error);
        return;
      }
      pending := Some(Receiving);
    }

    method OnRead(error: Error, response: Response)
      requires Valid() && pending == Some(Receiving)
      modifies this
      ensures Valid() && View() == OnEvent(old(View()), Event(error, response))
      ensures error == NoError ==>
                && completed && Relays(response, completions[0])
                && completions[0].version == clientVersion && completions[0].keepAlive == clientKeepAlive
    {
      pending := None;
      if error != NoError {
        Fail(error);
        return;
      }
      var headers := RemoveHopByHop(response.headers);
      Complete(response.(headers := headers, version := clientVersion, keepAlive := clientKeepAlive));
    }

    method Fail(error: Error)
      modifies this
      ensures completed && request == old(request) && pending == old(pending)
      ensures old(completed) ==> completions == old(completions) && hasHandler == old(hasHandler)
      ensures !old(completed) && old(hasHandler) ==>
                completions == old(completions) + [Failure(error, request)] && !hasHandler
      ensures !old(completed) && !old(hasHandler) ==> completions == old(completions) && !hasHandler
    {
      if completed {
        return;
      }
      if error == TimedOut {
        Complete(GatewayTimeout(request));
      } else {
        Complete(BadGateway(request));
      }
    }

    /** Only the first completion reaches the handler, and the handler is given up with it. */
    method Complete(response: Response)
      modifies this
      ensures completed && request == old(request) && pending == old(pending)
      ensures old(completed) ==> completions == old(completions) && hasHandler == old(hasHandler)
      ensures !old(completed) && old(hasHandler) ==> completions == old(completions) + [response] && !hasHandler
      ensures !old(completed) && !old(hasHandler) ==> completions == old(completions) && !hasHandler
    {
      if completed {
        return;
      }
      completed := true;
      if hasHandler {
        hasHandler := false;
        completions := completions + [response];
      }
    }
  }

  /** What a fetch comes to is what the upstream sent exactly if all four phases went well; otherwise a gateway error. */
  lemma OutcomeRelays(q: Request, upstream: Endpoint, events: seq<Event>)
    requires Outcome(q, upstream, events).Some?
    ensures var r := Outcome(q, upstream, events).value;
            if Clean(events) then Relays(events[3].response, r) && Suits(r, q) else r.status == 502 || r.status == 504
  {
    if |events| >= 4 {
      ReturnedRelays(events[3].response, q.version, q.keepAlive);
    }
  }

  /** A whole fetch: whatever the phases report, the handler is called exactly once, with the outcome. */
  method Fetch(q: Request, upstream: Endpoint, events: seq<Event>) returns (responses: seq<Response>)
    requires |events| >= 4
    ensures Outcome(q, upstream, events).Some?
    ensures responses == [Outcome(q, upstream, events).value]
    ensures Clean(events) ==> Relays(events[3].response, responses[0]) && Suits(responses[0], q)
  {
    var proxy := new UpstreamProxy(upstream, q);
    var i := 0;
    while !proxy.completed
      invariant proxy.Valid() && i <= 4
      invariant Drive(Start(q, upstream), events[..i]) == proxy.View()
      invariant !proxy.completed ==> i + Remaining(proxy.View()) == 4
      decreases 4 - i
    {
      assert events[..i + 1][..i] == events[..i];
      var e := events[i];
      ghost var before := proxy.View();
      EventsShorten(before, e);
      match proxy.pending.value {
        case Resolving => proxy.OnResolve(e.error);
        case Connecting => proxy.OnConnect(e.error);
        case Sending => proxy.OnWrite(e.error);
        case Receiving => proxy.OnRead(e.error, e.response);
      }
      assert proxy.View() == OnEvent(before, Event(e.error, e.response));
      i := i + 1;
    }
    DriveMeetsOutcome(q, upstream, events[..i]);
    OutcomeSettles(q, upstream, events, i);
    responses := proxy.completions;
    OutcomeRelays(q, upstream, events);
  }

  lemma OutcomeSettles(q: Request, upstream: Endpoint, events: seq<Event>, i: nat)
    requires i <= |events| && Outcome(q, upstream, events[..i]).Some?
    ensures Outcome(q, upstream, events) == Outcome(q, upstream, events[..i])
  {
    var some := events[..i];
    var s := FirstFailure(some);
    if s.Some? {
      assert forall k :: 0 <= k < i ==> some[k] == events[k];
      FirstFailureIs(events, s.value);
    } else {
      assert forall k :: 0 <= k < i ==> events[k] == some[k];
    }
  }
}
