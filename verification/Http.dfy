/** Requests, responses and header fields as the edge sees them once Beast has parsed them. */
module Http {

  datatype Option<+T> = None | Some(value: T)

  datatype Header = Header(name: string, value: string)

  datatype Verb = GetVerb | OtherVerb(name: string)

  datatype Request = Request(
    verb: Verb, target: string, version: nat, keepAlive: bool, headers: seq<Header>, body: string)

  datatype Response = Response(
    status: nat, version: nat, keepAlive: bool, headers: seq<Header>, body: string)

  // ---------- Field names ----------

  /** Field names compare without regard to ASCII case. */
  function LowerChar(c: char): char {
    if 'A' <= c <= 'Z' then (c as int + 32) as char else c
  }

  /** The 26 capitals become their small letters, and nothing else changes. */
  lemma LowerCharMeans(c: char)
    ensures forall k :: 0 <= k < 26 ==> LowerChar("ABCDEFGHIJKLMNOPQRSTUVWXYZ"[k]) == "abcdefghijklmnopqrstuvwxyz"[k]
    ensures c !in "ABCDEFGHIJKLMNOPQRSTUVWXYZ" ==> LowerChar(c) == c
  {
    var capitals := "ABCDEFGHIJKLMNOPQRSTUVWXYZ";
    assert forall k :: 0 <= k < 26 ==> capitals[k] as int == 'A' as int + k;
    if 'A' <= c <= 'Z' {
      assert capitals[c as int - 'A' as int] == c;
    }
  }

  function Lower(s: string): string {
    seq(|s|, i requires 0 <= i < |s| => LowerChar(s[i]))
  }

  predicate HasField(headers: seq<Header>, name: string) {
    exists i :: 0 <= i < |headers| && Lower(headers[i].name) == Lower(name)
  }

  /** The value of the first field with this name, or the empty string. */
  function FieldValue(headers: seq<Header>, name: string): string {
    if headers == [] then ""
    else if Lower(headers[0].name) == Lower(name) then headers[0].value
    else FieldValue(headers[1..], name)
  }

  /** `string_view::find(sub) != npos`. */
  predicate Contains(s: string, sub: string) {
    exists i {:trigger s[i..]} :: 0 <= i <= |s| && sub <= s[i..]
  }

  /** `find(c, start)`. */
  function FindFrom(s: string, c: char, start: nat): (r: Option<nat>)
    requires start <= |s|
    ensures r.None? ==> c !in s[start..]
    ensures r.Some? ==> start <= r.value < |s| && s[r.value] == c && c !in s[start..r.value]
    decreases |s| - start
  {
    if start == |s| then None
    else if s[start] == c then Some(start)
    else
      var r := FindFrom(s, c, start + 1);
      assert s[start..] == [s[start]] + s[start + 1..];
      assert r.Some? ==> s[start..r.value] == [s[start]] + s[start + 1..r.value];
      r
  }

  // ---------- Routing ----------

  const HEALTH_TARGET := "/health"
  const METRICS_TARGET := "/metrics"
  const AUTHORIZATION := "Authorization"
  const SET_COOKIE := "Set-Cookie"
  const CACHE_CONTROL := "Cache-Control"

  lemma FieldNames()
    ensures Lower(AUTHORIZATION) == "authorization" && Lower(SET_COOKIE) == "set-cookie"
    ensures Lower(CACHE_CONTROL) == "cache-control"
  {
  }

  predicate IsHealthRequest(q: Request) {
    q.target == HEALTH_TARGET
  }

  predicate CacheableRequest(q: Request) {
    q.verb == GetVerb && !HasField(q.headers, AUTHORIZATION) && !IsHealthRequest(q)
  }

  predicate CacheableResponse(r: Response) {
    if r.status != 200 || HasField(r.headers, SET_COOKIE) then false
    else
      var cacheControl := FieldValue(r.headers, CACHE_CONTROL);
      !Contains(cacheControl, "no-store") && !Contains(cacheControl, "private")
  }

  /** No field is called Authorization, in any letter case. */
  predicate Anonymous(q: Request) {
    forall i :: 0 <= i < |q.headers| ==> Lower(q.headers[i].name) != "authorization"
  }

  /** The requests that may be answered from the cache: GETs without credentials, but not of the two local targets. */
  predicate MayUseCache(q: Request) {
    q.verb == GetVerb && Anonymous(q) && q.target != "/health" && q.target != "/metrics"
  }

  lemma AnonymousMeans(q: Request)
    ensures Anonymous(q) <==> !HasField(q.headers, AUTHORIZATION)
  {
    FieldNames();
  }

  // ---------- Responses the edge makes itself ----------

  const TEXT := "text/plain"

  function MakeResponse(q: Request, status: nat, contentType: string, body: string): Response {
    Response(status, q.version, q.keepAlive, [Header("Server", "EventEdge"), Header("Content-Type", contentType)], body)
  }

  const HEALTH_BODY := "{\"status\":\"ok\",\"service\":\"eventedge\"}"

  function HandleRequest(q: Request): Response {
    if q.verb != GetVerb then
      var r := MakeResponse(q, 405, TEXT, "Method not allowed\n");
      r.(headers := r.headers + [Header("Allow", "GET")])
    else if IsHealthRequest(q) then MakeResponse(q, 200, "application/json", HEALTH_BODY)
    else MakeResponse(q, 404, TEXT, "Not found\n")
  }

  function BadGateway(q: Request): Response {
    MakeResponse(q, 502, TEXT, "Bad Gateway\n")
  }

  function ServiceUnavailable(q: Request): Response {
    MakeResponse(q, 503, TEXT, "Service Unavailable\n")
  }

  function GatewayTimeout(q: Request): Response {
    MakeResponse(q, 504, TEXT, "Gateway Timeout\n")
  }

  /** Two responses that say the same, whatever their version and keep-alive. */
  predicate SameContent(a: Response, b: Response) {
    a.status == b.status && a.headers == b.headers && a.body == b.body
  }

  /** The response speaks the request's version and keeps the connection as the request asks. */
  predicate Suits(r: Response, q: Request) {
    r.version == q.version && r.keepAlive == q.keepAlive
  }

  lemma FitMeans(r: Response, q: Request)
    ensures SameContent(Fit(r, q), r) && Suits(Fit(r, q), q)
  {
  }

  /** A response with the version and keep-alive of the request it answers. */
  function Fit(r: Response, q: Request): Response {
    r.(version := q.version, keepAlive := q.keepAlive)
  }
}
