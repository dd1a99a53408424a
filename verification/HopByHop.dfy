/** Removal of hop-by-hop header fields, on the way to and from an upstream. */
module HopByHop {
  import opened Http

  // ---------- Comma-separated tokens, as a specification ----------

  predicate Blank(c: char) {
    c == ' ' || c == '\t'
  }

  predicate AllBlank(s: string) {
    forall i :: 0 <= i < |s| ==> Blank(s[i])
  }

  /** The pieces of `s` between commas. */
  function Split(s: string): (pieces: seq<string>)
    ensures |pieces| > 0
  {
    if s == "" then [""]
    else
      var rest := Split(s[1..]);
      if s[0] == ',' then [""] + rest else [[s[0]] + rest[0]] + rest[1..]
  }

  function Join(pieces: seq<string>): string
    requires |pieces| > 0
  {
    if |pieces| == 1 then pieces[0] else pieces[0] + "," + Join(pieces[1..])
  }

  /** Splitting is the one comma-free reading of a value: joining the pieces gives the value back. */
  lemma {:induction false} SplitJoins(s: string)
    ensures Join(Split(s)) == s
    ensures forall k :: 0 <= k < |Split(s)| ==> ',' !in Split(s)[k]
  {
    if s != "" {
      SplitJoins(s[1..]);
      var rest := Split(s[1..]);
      assert s == [s[0]] + s[1..];
      if s[0] == ',' {
        assert ([""] + rest)[1..] == rest;
      } else {
        var pieces := [[s[0]] + rest[0]] + rest[1..];
        assert pieces[1..] == rest[1..];
        forall k | 0 <= k < |pieces| ensures ',' !in pieces[k] {
          assert ',' !in rest[k];
        }
      }
    }
  }

  /** `s` without the blanks at either end. */
  function Trim(s: string): (t: string)
    ensures t != "" ==> !Blank(t[0]) && !Blank(t[|t| - 1])
    ensures t == "" <==> AllBlank(s)
    decreases |s|
  {
    if s == "" then ""
    else if Blank(s[0]) then TrimFront(s)
    else if Blank(s[|s| - 1]) then Trim(s[..|s| - 1])
    else s
  }

  function TrimFront(s: string): (t: string)
    requires s != "" && Blank(s[0])
    ensures t != "" ==> !Blank(t[0]) && !Blank(t[|t| - 1])
    ensures t == "" <==> AllBlank(s)
    decreases |s|, 0
  {
    assert AllBlank(s) <==> AllBlank(s[1..]) by {
      if AllBlank(s[1..]) {
        forall i | 0 <= i < |s| ensures Blank(s[i]) {
          if i > 0 { assert s[1..][i - 1] == s[i]; }
        }
      }
    }
    Trim(s[1..])
  }

  /** The trimmed pieces that are not empty. */
  function Tokens(pieces: seq<string>): seq<string> {
    if pieces == [] then []
    else (if Trim(pieces[0]) == "" then [] else [Trim(pieces[0])]) + Tokens(pieces[1..])
  }

  // ---------- Library searches on a string view ----------

  /** `find_first_not_of(" \t")`. */
  function FirstNonBlank(s: string): (r: Option<nat>)
    ensures r.None? <==> AllBlank(s)
    ensures r.Some? ==> r.value < |s| && !Blank(s[r.value]) && AllBlank(s[..r.value])
  {
    if s == "" then None
    else if !Blank(s[0]) then Some(0)
    else
      match FirstNonBlank(s[1..])
      case None =>
        assert forall i :: 0 < i < |s| ==> s[i] == s[1..][i - 1];
        None
      case Some(i) =>
        assert s[1..][i] == s[i + 1];
        assert s[..i + 1] == [s[0]] + s[1..][..i];
        Some(i + 1)
  }

  /** `find_last_not_of(" \t")`. */
  function LastNonBlank(s: string): (r: Option<nat>)
    ensures r.None? <==> AllBlank(s)
    ensures r.Some? ==> r.value < |s| && !Blank(s[r.value]) && AllBlank(s[r.value + 1..])
  {
    if s == "" then None
    else if !Blank(s[|s| - 1]) then Some(|s| - 1)
    else
      match LastNonBlank(s[..|s| - 1])
      case None => None
      case Some(i) =>
        assert s[i + 1..] == s[..|s| - 1][i + 1..] + [s[|s| - 1]];
        Some(i)
  }

  /** What is left between blanks at either end is the trimmed piece. */
  lemma {:induction false} TrimCut(s: string, i: nat, j: nat)
    requires i < j <= |s| && !Blank(s[i]) && !Blank(s[j - 1])
    requires AllBlank(s[..i]) && AllBlank(s[j..])
    ensures Trim(s) == s[i..j]
    decreases |s|
  {
    if i > 0 {
      var t := s[1..];
      assert s[..i][0] == s[0];
      assert t[..i - 1] == s[..i][1..] && t[j - 1..] == s[j..] && t[i - 1..j - 1] == s[i..j];
      TrimCut(t, i - 1, j - 1);
    } else if j < |s| {
      var t := s[..|s| - 1];
      assert s[j..][|s| - 1 - j] == s[|s| - 1];
      assert t[..i] == [] && t[j..] == s[j..][..|s| - 1 - j] && t[i..j] == s[i..j];
      TrimCut(t, i, j);
    }
  }

  /** Cutting a piece at its first and last non-blank characters is trimming it. */
  lemma CutIsTrim(s: string)
    ensures FirstNonBlank(s).None? ==> Trim(s) == ""
    ensures FirstNonBlank(s).Some? ==>
              LastNonBlank(s).Some? && FirstNonBlank(s).value <= LastNonBlank(s).value
              && Trim(s) == s[FirstNonBlank(s).value..LastNonBlank(s).value + 1]
  {
    if FirstNonBlank(s).Some? {
      var i, j := FirstNonBlank(s).value, LastNonBlank(s).value;
      TrimCut(s, i, j + 1);
    }
  }

  lemma {:induction false} SplitAtComma(s: string, i: nat)
    requires i < |s| && s[i] == ',' && ',' !in s[..i]
    ensures Split(s) == [s[..i]] + Split(s[i + 1..])
  {
    if i == 0 {
    } else {
      assert s[0] in s[..i];
      assert s[1..][..i - 1] == s[1..i];
      assert forall c :: c in s[1..i] ==> c in s[..i];
      SplitAtComma(s[1..], i - 1);
      assert s[1..][i..] == s[i + 1..];
      assert [s[0]] + s[1..i] == s[..i];
    }
  }

  lemma {:induction false} SplitWithoutComma(s: string)
    requires ',' !in s
    ensures Split(s) == [s]
  {
    if s != "" {
      assert s[0] in s;
      assert forall c :: c in s[1..] ==> c in s;
      SplitWithoutComma(s[1..]);
      assert [s[0]] + s[1..] == s;
    }
  }

  lemma ScanStep(value: string, start: nat, end: nat)
    requires start <= end < |value| && value[end] == ',' && ',' !in value[start..end]
    ensures Tokens(Split(value[start..])) == Tokens([value[start..end]]) + Tokens(Split(value[end + 1..]))
  {
    var s := value[start..];
    assert s[..end - start] == value[start..end];
    SplitAtComma(s, end - start);
    assert s[end - start + 1..] == value[end + 1..];
    var pieces := [value[start..end]] + Split(value[end + 1..]);
    assert pieces[1..] == Split(value[end + 1..]);
    assert [value[start..end]][1..] == [];
  }

  // ---------- Tokens, on the characters of a value ----------

  /** The characters from `a` to `b` are a piece between commas, or between a comma and an end of the value. */
  ghost predicate PieceAt(v: string, a: int, b: int) {
    && 0 <= a <= b <= |v| && ',' !in v[a..b]
    && (a == 0 || v[a - 1] == ',') && (b == |v| || v[b] == ',')
  }

  /** What is left from `i` to `j` once blanks are skipped at both ends. */
  ghost predicate CutAt(s: string, i: int, j: int) {
    && 0 <= i < j <= |s| && AllBlank(s[..i]) && AllBlank(s[j..])
    && !Blank(s[i]) && !Blank(s[j - 1])
  }

  ghost predicate HasPiece(v: string, p: string) {
    exists a, b :: PieceAt(v, a, b) && p == v[a..b]
  }

  ghost predicate CutsTo(s: string, t: string) {
    exists i, j :: CutAt(s, i, j) && t == s[i..j]
  }

  /** `t` stands in the value between commas or ends, with nothing but blanks around it. */
  ghost predicate Lists(v: string, t: string) {
    exists p :: HasPiece(v, p) && CutsTo(p, t)
  }

  lemma TrimMeaning(s: string, t: string)
    ensures t == Trim(s) && t != "" <==> CutsTo(s, t)
  {
    CutIsTrim(s);
    if t == Trim(s) && t != "" {
      assert CutAt(s, FirstNonBlank(s).value, LastNonBlank(s).value + 1);
    }
    if i, j :| CutAt(s, i, j) && t == s[i..j] {
      TrimCut(s, i, j);
    }
  }

  /** Blanks around a token go, and nothing else does. */
  lemma PaddedToken(a: string, t: string, b: string)
    requires AllBlank(a) && AllBlank(b) && t != "" && !Blank(t[0]) && !Blank(t[|t| - 1])
    ensures Tokens([a + t + b]) == [t]
  {
    var s := a + t + b;
    assert s[..|a|] == a && s[|a|..|a| + |t|] == t && s[|a| + |t|..] == b;
    TrimCut(s, |a|, |a| + |t|);
    assert [s][1..] == [];
  }

  lemma {:induction false} TokensMembers(pieces: seq<string>, t: string)
    ensures t in Tokens(pieces) <==> t != "" && exists k :: 0 <= k < |pieces| && t == Trim(pieces[k])
  {
    if pieces != [] {
      TokensMembers(pieces[1..], t);
      if k :| 0 <= k < |pieces[1..]| && t == Trim(pieces[1..][k]) {
        assert pieces[k + 1] == pieces[1..][k];
      }
      if k :| 0 <= k < |pieces| && t == Trim(pieces[k]) {
        if k > 0 { assert pieces[k] == pieces[1..][k - 1]; }
      }
    }
  }

  lemma OnlyPiece(v: string, p: string)
    requires ',' !in v
    ensures HasPiece(v, p) <==> p == v
  {
    assert forall k :: 0 <= k < |v| ==> v[k] in v;
    assert PieceAt(v, 0, |v|) && v[0..|v|] == v;
  }

  /** The pieces of a value are the one before its first comma and those after. */
  lemma PiecesSplit(v: string, m: nat, p: string)
    requires m < |v| && v[m] == ',' && ',' !in v[..m]
    ensures HasPiece(v, p) <==> p == v[..m] || HasPiece(v[m + 1..], p)
  {
    var rest := v[m + 1..];
    assert PieceAt(v, 0, m) && v[0..m] == v[..m];
    if a, b :| PieceAt(rest, a, b) && p == rest[a..b] {
      assert v[m + 1 + a..m + 1 + b] == rest[a..b];
      assert PieceAt(v, m + 1 + a, m + 1 + b);
    }
    if a, b :| PieceAt(v, a, b) && p == v[a..b] {
      PieceSide(v, m, a, b);
      if a > m {
        assert v[a..b] == rest[a - m - 1..b - m - 1];
        assert PieceAt(rest, a - m - 1, b - m - 1);
      }
    }
  }

  lemma PieceSide(v: string, m: nat, a: int, b: int)
    requires m < |v| && v[m] == ',' && ',' !in v[..m] && PieceAt(v, a, b)
    ensures (a == 0 && b == m) || a > m
  {
    assert forall k :: 0 <= k < m ==> v[..m][k] == v[k];
    assert forall k :: a <= k < b ==> v[a..b][k - a] == v[k];
  }

  lemma {:induction false} SplitPieces(v: string, p: string)
    ensures p in Split(v) <==> HasPiece(v, p)
    decreases |v|
  {
    var comma := FindFrom(v, ',', 0);
    assert v[0..] == v;
    if comma.None? {
      SplitWithoutComma(v);
      OnlyPiece(v, p);
    } else {
      var m := comma.value;
      assert v[0..m] == v[..m];
      SplitAtComma(v, m);
      SplitPieces(v[m + 1..], p);
      PiecesSplit(v, m, p);
    }
  }

  /** The tokens are exactly what the value lists. */
  lemma TokensMeaning(v: string, t: string)
    ensures t in Tokens(Split(v)) <==> Lists(v, t)
  {
    TokensMembers(Split(v), t);
    if t in Tokens(Split(v)) {
      var k :| 0 <= k < |Split(v)| && t == Trim(Split(v)[k]);
      SplitPieces(v, Split(v)[k]);
      TrimMeaning(Split(v)[k], t);
    }
    if p :| HasPiece(v, p) && CutsTo(p, t) {
      TrimMeaning(p, t);
      SplitPieces(v, p);
      var k :| 0 <= k < |Split(v)| && Split(v)[k] == p;
    }
  }

  /** The scanning loop over one Connection value. */
  method ScanTokens(value: string) returns (tokens: seq<string>)
    ensures tokens == Tokens(Split(value))
    ensures forall t :: t in tokens <==> Lists(value, t)
  {
    forall t ensures t in Tokens(Split(value)) <==> Lists(value, t) {
      TokensMeaning(value, t);
    }
    tokens := [];
    var start := 0;
    while start < |value|
      invariant start <= |value|
      invariant tokens + Tokens(Split(value[start..])) == Tokens(Split(value))
      decreases |value| - start
    {
      var found, next := NextToken(value, start);
      if next.None? {
        return tokens + found;
      }
      Reassociate(tokens, found, Tokens(Split(value[next.value..])));
      tokens, start := tokens + found, next.value;
    }
    assert value[start..] == "";
    assert Tokens([""]) == [] by {
      assert [""][1..] == [];
    }
  }

  lemma Reassociate<T>(a: seq<T>, b: seq<T>, c: seq<T>)
    ensures a + (b + c) == a + b + c
  {
  }

  /** One turn of the loop: the token at `start`, if it is not blank, and where the next one begins. */
  method NextToken(value: string, start: nat) returns (found: seq<string>, next: Option<nat>)
    requires start <= |value|
    ensures next.None? ==> found == Tokens(Split(value[start..]))
    ensures next.Some? ==> start < next.value <= |value|
    ensures next.Some? ==> found + Tokens(Split(value[next.value..])) == Tokens(Split(value[start..]))
  {
    var end := FindFrom(value, ',', start);
    var tokenEnd := if end.None? then |value| else end.value;
    var token := value[start..tokenEnd];
    found := TrimmedToken(token);
    if end.None? {
      assert token == value[start..];
      SplitWithoutComma(token);
      return found, None;
    }
    ScanStep(value, start, tokenEnd);
    next := Some(end.value + 1);
  }

  method TrimmedToken(token: string) returns (found: seq<string>)
    ensures found == Tokens([token])
  {
    var first := FirstNonBlank(token);
    var last := LastNonBlank(token);
    CutIsTrim(token);
    assert [token][1..] == [];
    found := if first.Some? then [token[first.value..last.value + 1]] else [];
  }

  // ---------- The filter ----------

  const CONNECTION := "Connection"

  /** The eight names that are always hop-by-hop, in lower case. */
  const FIXED: set<string> := {
    "connection", "keep-alive", "proxy-authenticate", "proxy-authorization",
    "te", "trailer", "transfer-encoding", "upgrade"}

  lemma FixedNames(n: string)
    ensures n in FIXED <==>
            || n == "connection" || n == "keep-alive" || n == "proxy-authenticate" || n == "proxy-authorization"
            || n == "te" || n == "trailer" || n == "transfer-encoding" || n == "upgrade"
    ensures Lower(CONNECTION) == "connection"
  {
  }

  function LowerSet(names: seq<string>): set<string> {
    set n | n in names :: Lower(n)
  }

  /** Every name listed by some Connection field, in lower case. */
  function Nominated(headers: seq<Header>): set<string> {
    if headers == [] then {}
    else
      (if Lower(headers[0].name) == Lower(CONNECTION) then LowerSet(Tokens(Split(headers[0].value))) else {})
      + Nominated(headers[1..])
  }

  /** The fields whose lower-case name is not in `names`, in order and unchanged. */
  function Keep(headers: seq<Header>, names: set<string>): seq<Header> {
    if headers == [] then []
    else (if Lower(headers[0].name) in names then [] else [headers[0]]) + Keep(headers[1..], names)
  }

  function EndToEnd(headers: seq<Header>): seq<Header> {
    Keep(headers, Nominated(headers) + FIXED)
  }

  predicate HopFree(headers: seq<Header>) {
    forall i :: 0 <= i < |headers| ==> Lower(headers[i].name) !in FIXED
  }

  /** `fields::erase(name)`: every field of that name goes. */
  function Erase(headers: seq<Header>, name: string): seq<Header> {
    Keep(headers, {Lower(name)})
  }

  lemma {:induction false} KeepTwice(headers: seq<Header>, a: set<string>, b: set<string>)
    ensures Keep(Keep(headers, a), b) == Keep(headers, a + b)
  {
    if headers != [] {
      KeepTwice(headers[1..], a, b);
      var rest := Keep(headers[1..], a);
      assert ([headers[0]] + rest)[1..] == rest;
      assert [] + rest == rest;
      assert [] + Keep(headers[1..], a + b) == Keep(headers[1..], a + b);
    }
  }

  lemma {:induction false} KeepMembers(headers: seq<Header>, names: set<string>)
    ensures forall h :: h in Keep(headers, names) <==> h in headers && Lower(h.name) !in names
    ensures forall h: Header :: Lower(h.name) !in names ==> multiset(Keep(headers, names))[h] == multiset(headers)[h]
  {
    if headers != [] {
      KeepMembers(headers[1..], names);
      assert headers == [headers[0]] + headers[1..];
    }
  }

  /** `at` lists, in increasing order, where the elements of `kept` are in `headers`. */
  ghost predicate Positions(headers: seq<Header>, kept: seq<Header>, at: seq<nat>) {
    && |at| == |kept|
    && (forall i, j :: 0 <= i < j < |at| ==> at[i] < at[j])
    && (forall i :: 0 <= i < |at| ==> at[i] < |headers| && headers[at[i]] == kept[i])
  }

  function Shifted(at: seq<nat>): (up: seq<nat>)
    ensures |up| == |at| && forall i :: 0 <= i < |at| ==> up[i] == at[i] + 1
  {
    seq(|at|, i requires 0 <= i < |at| => at[i] + 1)
  }

  lemma ShiftedMembers(at: seq<nat>)
    ensures 0 !in Shifted(at) && forall i: nat :: i + 1 in Shifted(at) <==> i in at
  {
    forall i: nat ensures i + 1 in Shifted(at) <==> i in at {
      if i in at {
        var k :| 0 <= k < |at| && at[k] == i;
        assert Shifted(at)[k] == i + 1;
      }
    }
  }

  lemma PositionsShift(h: Header, headers: seq<Header>, kept: seq<Header>, at: seq<nat>)
    requires Positions(headers, kept, at)
    ensures Positions([h] + headers, kept, Shifted(at))
  {
  }

  lemma PositionsCons(h: Header, headers: seq<Header>, kept: seq<Header>, at: seq<nat>)
    requires Positions(headers, kept, at)
    ensures Positions([h] + headers, [h] + kept, [0] + Shifted(at))
  {
    PositionsShift(h, headers, kept, at);
  }

  lemma {:induction false} KeepPositions(headers: seq<Header>, names: set<string>) returns (at: seq<nat>)
    ensures Positions(headers, Keep(headers, names), at)
    ensures forall i :: 0 <= i < |headers| ==> (i in at <==> Lower(headers[i].name) !in names)
  {
    if headers == [] {
      at := [];
    } else {
      at := KeepPositions(headers[1..], names);
      var h, kept := headers[0], Keep(headers[1..], names);
      assert headers == [h] + headers[1..];
      if Lower(h.name) in names {
        assert Keep(headers, names) == kept;
        PositionsShift(h, headers[1..], kept, at);
        ShiftedMembers(at);
        at := Shifted(at);
      } else {
        PositionsCons(h, headers[1..], kept, at);
        ShiftedMembers(at);
        at := [0] + Shifted(at);
      }
    }
  }

  lemma {:induction false} NominatedSnoc(headers: seq<Header>, h: Header)
    ensures Nominated(headers + [h]) == Nominated(headers) + Nominated([h])
  {
    if headers == [] {
      assert headers + [h] == [h];
    } else {
      NominatedSnoc(headers[1..], h);
      assert (headers + [h])[1..] == headers[1..] + [h];
    }
  }

  lemma {:induction false} NothingNominated(headers: seq<Header>)
    requires forall i :: 0 <= i < |headers| ==> Lower(headers[i].name) != Lower(CONNECTION)
    ensures Nominated(headers) == {}
  {
    if headers != [] {
      assert forall i :: 0 <= i < |headers[1..]| ==> headers[1..][i] == headers[i + 1];
      NothingNominated(headers[1..]);
    }
  }

  /** The whole removal: collect the tokens, erase each, then erase the fixed names. */
  method RemoveHopByHop(headers: seq<Header>) returns (kept: seq<Header>)
    ensures kept == EndToEnd(headers) && PassedOn(headers, kept, {})
  {
    var tokens: seq<string> := [];
    for i := 0 to |headers|
      invariant LowerSet(tokens) == Nominated(headers[..i])
    {
      assert headers[..i + 1] == headers[..i] + [headers[i]];
      NominatedSnoc(headers[..i], headers[i]);
      if Lower(headers[i].name) == Lower(CONNECTION) {
        var found := ScanTokens(headers[i].value);
        assert LowerSet(tokens + found) == LowerSet(tokens) + LowerSet(found);
        tokens := tokens + found;
      }
    }
    assert headers[..|headers|] == headers;
    kept := headers;
    KeepNothing(headers);
    for i := 0 to |tokens|
      invariant kept == Keep(headers, LowerSet(tokens[..i]))
    {
      assert tokens[..i + 1] == tokens[..i] + [tokens[i]];
      KeepTwice(headers, LowerSet(tokens[..i]), {Lower(tokens[i])});
      assert LowerSet(tokens[..i + 1]) == LowerSet(tokens[..i]) + {Lower(tokens[i])};
      kept := Erase(kept, tokens[i]);
    }
    assert tokens[..|tokens|] == tokens;
    kept := EraseFixed(headers, kept, LowerSet(tokens));
    EndToEndIsPassedOn(headers);
  }

  lemma {:induction false} KeepNothing(headers: seq<Header>)
    ensures Keep(headers, {}) == headers
  {
    if headers != [] {
      KeepNothing(headers[1..]);
      assert headers == [headers[0]] + headers[1..];
    }
  }

  const FIXED_NAMES: seq<string> := [
    "Connection", "Keep-Alive", "Proxy-Authenticate", "Proxy-Authorization",
    "TE", "Trailer", "Transfer-Encoding", "Upgrade"]

  method EraseFixed(ghost headers: seq<Header>, some: seq<Header>, ghost gone: set<string>) returns (kept: seq<Header>)
    requires some == Keep(headers, gone)
    ensures kept == Keep(headers, gone + FIXED)
  {
    var names := FIXED_NAMES;
    kept := some;
    assert gone + LowerSet(names[..0]) == gone;
    for i := 0 to |names|
      invariant kept == Keep(headers, gone + LowerSet(names[..i]))
    {
      assert names[..i + 1] == names[..i] + [names[i]];
      KeepTwice(headers, gone + LowerSet(names[..i]), {Lower(names[i])});
      assert gone + LowerSet(names[..i + 1]) == gone + LowerSet(names[..i]) + {Lower(names[i])};
      kept := Erase(kept, names[i]);
    }
    assert names[..|names|] == names;
    LowerFixed();
  }

  lemma LowerFixed()
    ensures LowerSet(FIXED_NAMES) == FIXED
  {
    LowerFixedFirst();
    LowerFixedLast();
    assert forall n :: n in LowerSet(FIXED_NAMES) ==> exists i :: 0 <= i < 8 && n == Lower(FIXED_NAMES[i]);
  }

  lemma LowerFixedFirst()
    ensures Lower(FIXED_NAMES[0]) == "connection" && Lower(FIXED_NAMES[1]) == "keep-alive"
    ensures Lower(FIXED_NAMES[2]) == "proxy-authenticate" && Lower(FIXED_NAMES[3]) == "proxy-authorization"
  {
  }

  lemma LowerFixedLast()
    ensures Lower(FIXED_NAMES[4]) == "te" && Lower(FIXED_NAMES[5]) == "trailer"
    ensures Lower(FIXED_NAMES[6]) == "transfer-encoding" && Lower(FIXED_NAMES[7]) == "upgrade"
  {
  }

  // ---------- What the filter means ----------

  /** A Connection field lists a name that is `n` in lower case. */
  ghost predicate ListedByConnection(headers: seq<Header>, n: string) {
    exists i, t :: 0 <= i < |headers| && Lower(headers[i].name) == Lower(CONNECTION)
                   && Lists(headers[i].value, t) && n == Lower(t)
  }

  lemma NominatedHead(h: Header, n: string)
    ensures n in LowerSet(Tokens(Split(h.value))) <==> exists t :: Lists(h.value, t) && n == Lower(t)
  {
    if n in LowerSet(Tokens(Split(h.value))) {
      var t :| t in Tokens(Split(h.value)) && n == Lower(t);
      TokensMeaning(h.value, t);
    }
    if t :| Lists(h.value, t) && n == Lower(t) {
      TokensMeaning(h.value, t);
    }
  }

  lemma {:induction false} NominatedMeaning(headers: seq<Header>, n: string)
    ensures n in Nominated(headers) <==> ListedByConnection(headers, n)
  {
    if headers != [] {
      NominatedMeaning(headers[1..], n);
      NominatedHead(headers[0], n);
      if n in Nominated(headers[1..]) {
        var i, t :| 0 <= i < |headers[1..]| && Lower(headers[1..][i].name) == Lower(CONNECTION)
                    && Lists(headers[1..][i].value, t) && n == Lower(t);
        assert headers[i + 1] == headers[1..][i];
      }
      if ListedByConnection(headers, n) {
        var i, t :| 0 <= i < |headers| && Lower(headers[i].name) == Lower(CONNECTION)
                    && Lists(headers[i].value, t) && n == Lower(t);
        if i > 0 { assert headers[i] == headers[1..][i - 1]; }
      }
    }
  }

  /** Field `i` goes on to the other side. */
  ghost predicate Survives(headers: seq<Header>, i: nat)
    requires i < |headers|
  {
    Lower(headers[i].name) !in FIXED && !ListedByConnection(headers, Lower(headers[i].name))
  }

  /** `kept` is the fields that survive and are not named in `but`: those, each once, in order and unchanged. */
  ghost predicate PassedOn(headers: seq<Header>, kept: seq<Header>, but: set<string>) {
    exists at :: Positions(headers, kept, at) && PicksSurvivors(headers, at, but)
  }

  ghost predicate PicksSurvivors(headers: seq<Header>, at: seq<nat>, but: set<string>) {
    forall i :: 0 <= i < |headers| ==> (i in at <==> Survives(headers, i) && Lower(headers[i].name) !in but)
  }

  lemma KeepIsPassedOn(headers: seq<Header>, but: set<string>)
    ensures PassedOn(headers, Keep(headers, Nominated(headers) + FIXED + but), but)
  {
    var at := KeepPositions(headers, Nominated(headers) + FIXED + but);
    forall i | 0 <= i < |headers| ensures i in at <==> Survives(headers, i) && Lower(headers[i].name) !in but {
      NominatedMeaning(headers, Lower(headers[i].name));
    }
    assert PicksSurvivors(headers, at, but);
  }

  lemma EndToEndIsPassedOn(headers: seq<Header>)
    ensures PassedOn(headers, EndToEnd(headers), {})
  {
    KeepIsPassedOn(headers, {});
    assert Nominated(headers) + FIXED + {} == Nominated(headers) + FIXED;
  }

  /** A field survives exactly when its name is neither fixed nor listed, and survivors keep order, value and multiplicity. */
  lemma FilterMeaning(headers: seq<Header>) returns (at: seq<nat>)
    ensures forall h :: h in EndToEnd(headers) <==>
                        h in headers && Lower(h.name) !in FIXED && !ListedByConnection(headers, Lower(h.name))
    ensures forall h :: h in EndToEnd(headers) ==> multiset(EndToEnd(headers))[h] == multiset(headers)[h]
    ensures Positions(headers, EndToEnd(headers), at) && PicksSurvivors(headers, at, {})
  {
    KeepMembers(headers, Nominated(headers) + FIXED);
    forall h: Header ensures Lower(h.name) in Nominated(headers) <==> ListedByConnection(headers, Lower(h.name)) {
      NominatedMeaning(headers, Lower(h.name));
    }
    EndToEndIsPassedOn(headers);
    at :| Positions(headers, EndToEnd(headers), at) && PicksSurvivors(headers, at, {});
  }

  /** There is only one such list. */
  lemma PassedOnIsUnique(headers: seq<Header>, a: seq<Header>, b: seq<Header>, but: set<string>)
    requires PassedOn(headers, a, but) && PassedOn(headers, b, but)
    ensures a == b
  {
    var p :| Positions(headers, a, p) && PicksSurvivors(headers, p, but);
    var q :| Positions(headers, b, q) && PicksSurvivors(headers, q, but);
    forall i: nat ensures i in p <==> i in q {
      if i < |headers| {
        assert i in p <==> Survives(headers, i) && Lower(headers[i].name) !in but;
      }
    }
    SameIncreasing(p, q);
  }

  ghost predicate Increasing(p: seq<nat>) {
    forall i, j :: 0 <= i < j < |p| ==> p[i] < p[j]
  }

  lemma LastIsGreatest(p: seq<nat>, x: nat)
    requires Increasing(p) && p != []
    ensures x in p ==> x <= p[|p| - 1]
    ensures x in p[..|p| - 1] <==> x in p && x != p[|p| - 1]
  {
    assert p == p[..|p| - 1] + [p[|p| - 1]];
  }

  /** Increasing lists with the same elements are the same. */
  lemma {:induction false} SameIncreasing(p: seq<nat>, q: seq<nat>)
    requires Increasing(p) && Increasing(q) && forall x: nat :: x in p <==> x in q
    ensures p == q
  {
    if p == [] || q == [] {
      NothingIn(p, q);
    } else {
      var n, m := |p| - 1, |q| - 1;
      LastIsGreatest(p, q[m]);
      LastIsGreatest(q, p[n]);
      forall x: nat ensures x in p[..n] <==> x in q[..m] {
        LastIsGreatest(p, x);
        LastIsGreatest(q, x);
      }
      SameIncreasing(p[..n], q[..m]);
      assert p == p[..n] + [p[n]] && q == q[..m] + [q[m]];
    }
  }

  lemma NothingIn(p: seq<nat>, q: seq<nat>)
    requires (p == [] || q == []) && forall x: nat :: x in p <==> x in q
    ensures p == q
  {
    HasElement(p);
    HasElement(q);
  }

  lemma HasElement(p: seq<nat>)
    ensures p == [] || exists x: nat :: x in p
  {
    if p != [] {
      assert p[0] in p;
    }
  }

  lemma FilteredIsHopFree(headers: seq<Header>)
    ensures HopFree(EndToEnd(headers))
  {
    KeepMembers(headers, Nominated(headers) + FIXED);
    forall i | 0 <= i < |EndToEnd(headers)| ensures Lower(EndToEnd(headers)[i].name) !in FIXED {
      assert EndToEnd(headers)[i] in EndToEnd(headers);
    }
  }

  lemma FilterIdempotent(headers: seq<Header>)
    ensures EndToEnd(EndToEnd(headers)) == EndToEnd(headers)
  {
    var kept := EndToEnd(headers);
    FilteredIsHopFree(headers);
    assert Lower(CONNECTION) == "connection";
    NothingNominated(kept);
    var names := Nominated(headers) + FIXED;
    KeepTwice(headers, names, FIXED);
    assert {} + FIXED == FIXED && names + FIXED == names;
  }
}
