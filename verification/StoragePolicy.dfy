/** The storage decision is taken on the response after hop-by-hop filtering; this relates it to what the upstream sent. */
module StoragePolicy {
  import opened Http
  import opened HopByHop
  import CacheControl

  function Filtered(r: Response): Response {
    r.(headers := EndToEnd(r.headers))
  }

  /** What the first Cache-Control field says of a response. */
  predicate MarkedUnstorable(r: Response) {
    CacheControl.Spelled(FieldValue(r.headers, CACHE_CONTROL))
  }

  ghost predicate Listed(r: Response, name: string) {
    ListedByConnection(r.headers, Lower(name))
  }

  lemma {:induction false} KeepField(headers: seq<Header>, names: set<string>, name: string)
    ensures Lower(name) !in names ==> HasField(Keep(headers, names), name) == HasField(headers, name)
    ensures Lower(name) !in names ==> FieldValue(Keep(headers, names), name) == FieldValue(headers, name)
    ensures Lower(name) in names ==> !HasField(Keep(headers, names), name)
    ensures Lower(name) in names ==> FieldValue(Keep(headers, names), name) == ""
  {
    if headers != [] {
      KeepField(headers[1..], names, name);
      HasFieldCons(headers, name);
      var rest := Keep(headers[1..], names);
      if Lower(headers[0].name) in names {
        assert Keep(headers, names) == rest;
      } else {
        var kept := [headers[0]] + rest;
        assert Keep(headers, names) == kept && kept[1..] == rest;
        HasFieldCons(kept, name);
      }
    }
  }

  lemma HasFieldCons(headers: seq<Header>, name: string)
    requires headers != []
    ensures HasField(headers, name) <==> Lower(headers[0].name) == Lower(name) || HasField(headers[1..], name)
  {
    if HasField(headers, name) {
      var i :| 0 <= i < |headers| && Lower(headers[i].name) == Lower(name);
      if i > 0 { assert headers[1..][i - 1] == headers[i]; }
    }
    if HasField(headers[1..], name) {
      var i :| 0 <= i < |headers[1..]| && Lower(headers[1..][i].name) == Lower(name);
      assert headers[i + 1] == headers[1..][i];
    }
  }

  lemma NothingContainsMarks()
    ensures !Contains("", "no-store") && !Contains("", "private")
  {
  }

  lemma PolicyNames()
    ensures Lower(SET_COOKIE) !in FIXED && Lower(CACHE_CONTROL) !in FIXED
  {
    assert Lower(SET_COOKIE)[0] == 's' && Lower(CACHE_CONTROL)[1] == 'a';
    assert forall n :: n in FIXED ==> n[0] != 's';
    assert forall n :: n in FIXED && n[0] == 'c' ==> n[1] == 'o';
  }

  /** The decision on the filtered response, in terms of the response the upstream sent. */
  lemma DecisionAfterFilter(r: Response)
    ensures CacheableResponse(Filtered(r)) <==>
            && r.status == 200
            && (HasField(r.headers, SET_COOKIE) ==> Listed(r, SET_COOKIE))
            && (MarkedUnstorable(r) ==> Listed(r, CACHE_CONTROL))
  {
    var names := Nominated(r.headers) + FIXED;
    PolicyNames();
    NothingContainsMarks();
    KeepField(r.headers, names, SET_COOKIE);
    KeepField(r.headers, names, CACHE_CONTROL);
    NominatedMeaning(r.headers, Lower(SET_COOKIE));
    NominatedMeaning(r.headers, Lower(CACHE_CONTROL));
  }

  /**
   * Filtering never blocks a response the upstream allowed to be stored, and it changes the decision
   * exactly when the Connection field lists the very field that forbade storing.
   */
  lemma FilterAndDecision(r: Response)
    ensures CacheableResponse(r) ==> CacheableResponse(Filtered(r))
    ensures CacheableResponse(Filtered(r)) == CacheableResponse(r) <==>
            !(&& r.status == 200
              && (HasField(r.headers, SET_COOKIE) || MarkedUnstorable(r))
              && (HasField(r.headers, SET_COOKIE) ==> Listed(r, SET_COOKIE))
              && (MarkedUnstorable(r) ==> Listed(r, CACHE_CONTROL)))
  {
    DecisionAfterFilter(r);
  }

  const LISTED_COOKIE := Response(200, 11, true, [Header("Connection", "Set-Cookie"), Header("Set-Cookie", "a")], "")

  lemma CookieIsListed()
    ensures HasField(LISTED_COOKIE.headers, SET_COOKIE) && Listed(LISTED_COOKIE, SET_COOKIE)
  {
    var headers := LISTED_COOKIE.headers;
    assert Lower(headers[1].name) == Lower(SET_COOKIE);
    var v := headers[0].value;
    assert PieceAt(v, 0, |v|) && CutAt(v, 0, |v|) && v[0..|v|] == v;
    assert HasPiece(v, v) && CutsTo(v, v);
  }

  lemma CookieResponseIsUnmarked()
    ensures !MarkedUnstorable(LISTED_COOKIE)
  {
    var headers := LISTED_COOKIE.headers;
    assert Lower(CACHE_CONTROL)[1] == 'a' && Lower(headers[0].name)[1] == 'o' && Lower(headers[1].name)[1] == 'e';
    assert headers[1..] == [headers[1]] && headers[1..][1..] == [];
    assert FieldValue(headers[1..], CACHE_CONTROL) == FieldValue([], CACHE_CONTROL);
    assert FieldValue(headers, CACHE_CONTROL) == FieldValue(headers[1..], CACHE_CONTROL);
    NothingContainsMarks();
  }

  /** The two decisions do differ: a listed Set-Cookie is dropped before the decision is taken. */
  lemma FilterCanPermitStorage()
    ensures !CacheableResponse(LISTED_COOKIE) && CacheableResponse(Filtered(LISTED_COOKIE))
  {
    CookieIsListed();
    CookieResponseIsUnmarked();
    DecisionAfterFilter(LISTED_COOKIE);
  }
}
