/**
 * The storage decision against Cache-Control as section 5.2 of RFC 9111 has it: comma-separated directives in every such
 * field, named without regard to case. The code searches the first field's value for the names as substrings.
 */
module CacheControl {
  import opened Http
  import opened HopByHop

  const NO_STORE := "no-store"
  const PRIVATE := "private"

  // ---------- Substrings and tokens ----------

  ghost predicate OccursAt(s: string, m: string, p: nat) {
    p + |m| <= |s| && forall k :: 0 <= k < |m| ==> m[k] == s[p + k]
  }

  lemma ContainsMeans(s: string, m: string)
    ensures Contains(s, m) <==> exists p: nat :: OccursAt(s, m, p)
  {
    if Contains(s, m) {
      var i :| 0 <= i <= |s| && m <= s[i..];
      assert forall k :: 0 <= k < |m| ==> m[k] == s[i..][k];
      assert OccursAt(s, m, i);
    }
    if p: nat :| OccursAt(s, m, p) {
      assert m <= s[p..];
    }
  }

  lemma ContainsInside(s: string, m: string, i: nat, j: nat)
    requires i <= j <= |s| && Contains(s[i..j], m)
    ensures Contains(s, m)
  {
    ContainsMeans(s[i..j], m);
    ContainsMeans(s, m);
    var p: nat :| OccursAt(s[i..j], m, p);
    assert OccursAt(s, m, i + p);
  }

  lemma OccursInside(s: string, m: string, i: nat, j: nat, p: nat)
    requires OccursAt(s, m, p) && i <= p && p + |m| <= j <= |s|
    ensures Contains(s[i..j], m)
  {
    ContainsMeans(s[i..j], m);
    assert OccursAt(s[i..j], m, p - i);
  }

  /** An occurrence keeps clear of characters that `m` does not have. */
  lemma OccurrenceAvoids(s: string, m: string, p: nat, k: nat)
    requires OccursAt(s, m, p) && k < |s| && s[k] !in m
    ensures k < p || p + |m| <= k
  {
    assert forall j :: p <= j < p + |m| ==> s[j] in m by {
      forall j | p <= j < p + |m| ensures s[j] in m {
        assert m[j - p] == s[j];
      }
    }
  }

  /** Cutting off ends made of characters that `m` does not have loses no occurrence. */
  lemma ContainsCut(s: string, m: string, i: nat, j: nat)
    requires m != "" && i <= j <= |s|
    requires forall k :: 0 <= k < i || j <= k < |s| ==> s[k] !in m
    ensures Contains(s, m) <==> Contains(s[i..j], m)
  {
    if Contains(s[i..j], m) {
      ContainsInside(s, m, i, j);
    }
    if Contains(s, m) {
      ContainsMeans(s, m);
      var p: nat :| OccursAt(s, m, p);
      assert m[0] == s[p] && m[|m| - 1] == s[p + |m| - 1];
      OccursInside(s, m, i, j, p);
    }
  }

  /** Splitting at a character that `m` does not have loses no occurrence. */
  lemma ContainsSplit(s: string, m: string, i: nat)
    requires i < |s| && s[i] !in m
    ensures Contains(s, m) <==> Contains(s[..i], m) || Contains(s[i + 1..], m)
  {
    assert s[..i] == s[0..i] && s[i + 1..] == s[i + 1..|s|];
    if Contains(s[..i], m) {
      ContainsInside(s, m, 0, i);
    }
    if Contains(s[i + 1..], m) {
      ContainsInside(s, m, i + 1, |s|);
    }
    if Contains(s, m) {
      ContainsMeans(s, m);
      var p: nat :| OccursAt(s, m, p);
      OccurrenceAvoids(s, m, p, i);
      if p + |m| <= i {
        OccursInside(s, m, 0, i, p);
      } else {
        OccursInside(s, m, i + 1, |s|, p);
      }
    }
  }

  /** Without a comma or a blank in it. */
  predicate Solid(m: string) {
    m != "" && ',' !in m && ' ' !in m && '\t' !in m
  }

  ghost predicate InSome(tokens: seq<string>, m: string) {
    exists k :: 0 <= k < |tokens| && Contains(tokens[k], m)
  }

  lemma InSomeOf(a: seq<string>, b: seq<string>, m: string)
    ensures InSome(a + b, m) <==> InSome(a, m) || InSome(b, m)
  {
    if k :| 0 <= k < |b| && Contains(b[k], m) {
      assert (a + b)[|a| + k] == b[k];
    }
    if k :| 0 <= k < |a| && Contains(a[k], m) {
      assert (a + b)[k] == a[k];
    }
  }

  lemma CutIsClear(s: string, m: string, i: nat, j: nat)
    requires Solid(m) && i <= j <= |s| && AllBlank(s[..i]) && AllBlank(s[j..])
    ensures forall k :: 0 <= k < i || j <= k < |s| ==> s[k] !in m
  {
    forall k | 0 <= k < i || j <= k < |s| ensures s[k] !in m {
      if k < i { assert s[k] == s[..i][k]; } else { assert s[k] == s[j..][k - j]; }
    }
  }

  lemma TrimKeepsOccurrence(s: string, m: string)
    requires Solid(m)
    ensures Contains(s, m) <==> InSome(Tokens([s]), m)
  {
    CutIsTrim(s);
    assert [s][1..] == [];
    if FirstNonBlank(s).Some? {
      var i, j := FirstNonBlank(s).value, LastNonBlank(s).value + 1;
      CutIsClear(s, m, i, j);
      ContainsCut(s, m, i, j);
      assert Tokens([s]) == [s[i..j]] && Tokens([s])[0] == s[i..j];
    } else {
      ContainsCut(s, m, 0, 0);
      assert s[0..0] == "" && Tokens([s]) == [];
    }
  }

  /** A value contains a solid word exactly if one of its tokens does. */
  lemma {:induction false} WordInToken(v: string, m: string)
    requires Solid(m)
    ensures Contains(v, m) <==> InSome(Tokens(Split(v)), m)
    decreases |v|
  {
    var comma := FindFrom(v, ',', 0);
    assert v[0..] == v;
    if comma.None? {
      SplitWithoutComma(v);
      TrimKeepsOccurrence(v, m);
    } else {
      var i := comma.value;
      ContainsSplit(v, m, i);
      ScanStep(v, 0, i);
      assert v[0..i] == v[..i];
      TrimKeepsOccurrence(v[..i], m);
      WordInToken(v[i + 1..], m);
      InSomeOf(Tokens([v[..i]]), Tokens(Split(v[i + 1..])), m);
    }
  }

  // ---------- Directives ----------

  /** What comes before an equals sign. */
  function DirectiveName(t: string): (n: string)
    ensures n <= t
  {
    if t == "" || t[0] == '=' then ""
    else
      assert t == [t[0]] + t[1..];
      [t[0]] + DirectiveName(t[1..])
  }

  /** The directive forbids a shared cache to store. */
  predicate Names(t: string) {
    Lower(DirectiveName(t)) == NO_STORE || Lower(DirectiveName(t)) == PRIVATE
  }

  /** The code finds a mark in it. */
  predicate Spelled(t: string) {
    Contains(t, NO_STORE) || Contains(t, PRIVATE)
  }

  /** A forbidding directive that the code does not find is not written in lower case. */
  lemma LowerCaseIsSpelled(t: string)
    requires Names(t) && DirectiveName(t) == Lower(DirectiveName(t))
    ensures Spelled(t)
  {
    var n := DirectiveName(t);
    assert t[0..] == t && n <= t[0..];
  }

  predicate IsControl(h: Header) {
    Lower(h.name) == Lower(CACHE_CONTROL)
  }

  function Directives(h: Header): seq<string> {
    Tokens(Split(h.value))
  }

  function FirstControl(headers: seq<Header>): (r: Option<nat>)
    ensures r.None? ==> forall i :: 0 <= i < |headers| ==> !IsControl(headers[i])
    ensures r.Some? ==> r.value < |headers| && IsControl(headers[r.value])
    ensures r.Some? ==> forall i :: 0 <= i < r.value ==> !IsControl(headers[i])
  {
    if headers == [] then None
    else if IsControl(headers[0]) then Some(0)
    else
      assert forall i :: 0 < i < |headers| ==> headers[i] == headers[1..][i - 1];
      match FirstControl(headers[1..]) case None => None case Some(i) => Some(i + 1)
  }

  lemma {:induction false} ValueIsFirst(headers: seq<Header>)
    ensures FieldValue(headers, CACHE_CONTROL)
            == if FirstControl(headers).Some? then headers[FirstControl(headers).value].value else ""
  {
    if headers != [] {
      ValueIsFirst(headers[1..]);
    }
  }

  /** A 200 that sets no cookie. */
  predicate Eligible(r: Response) {
    r.status == 200 && !HasField(r.headers, SET_COOKIE)
  }

  ghost predicate SomeSpelled(tokens: seq<string>) {
    exists k :: 0 <= k < |tokens| && Spelled(tokens[k])
  }

  ghost predicate SomeNames(tokens: seq<string>) {
    exists k :: 0 <= k < |tokens| && Names(tokens[k])
  }

  lemma ValueByToken(v: string)
    ensures Spelled(v) <==> SomeSpelled(Tokens(Split(v)))
  {
    WordInToken(v, NO_STORE);
    WordInToken(v, PRIVATE);
    var tokens := Tokens(Split(v));
    if k :| 0 <= k < |tokens| && Contains(tokens[k], NO_STORE) {
      assert Spelled(tokens[k]);
    }
    if k :| 0 <= k < |tokens| && Contains(tokens[k], PRIVATE) {
      assert Spelled(tokens[k]);
    }
  }

  /** The code's decision, directive by directive: it looks at the first field only, for a mark anywhere in a directive. */
  lemma DecisionByDirective(r: Response)
    ensures var first := FirstControl(r.headers);
            CacheableResponse(r) <==>
              Eligible(r) && !(first.Some? && SomeSpelled(Directives(r.headers[first.value])))
  {
    ValueIsFirst(r.headers);
    ValueByToken(FieldValue(r.headers, CACHE_CONTROL));
    assert Split("") == [""] && [""][1..] == [] && Tokens(Split("")) == [];
  }

  /** What the directives permit: every field counts, names without regard to case. */
  ghost predicate Permitted(r: Response) {
    Eligible(r) && forall i :: 0 <= i < |r.headers| && IsControl(r.headers[i]) ==> !SomeNames(Directives(r.headers[i]))
  }

  ghost predicate SomeCapitalName(tokens: seq<string>) {
    exists k :: 0 <= k < |tokens| && Names(tokens[k]) && DirectiveName(tokens[k]) != Lower(DirectiveName(tokens[k]))
  }

  ghost predicate LaterNames(headers: seq<Header>, first: nat) {
    exists j :: first < j < |headers| && IsControl(headers[j]) && SomeNames(Directives(headers[j]))
  }

  ghost predicate SomeMereSpelling(tokens: seq<string>) {
    exists k :: 0 <= k < |tokens| && Spelled(tokens[k]) && !Names(tokens[k])
  }

  /** The first field shows no mark, but forbids in other letter case, or a later field forbids. */
  ghost predicate MarkIsMissed(r: Response) {
    var first := FirstControl(r.headers);
    && Eligible(r) && first.Some? && !SomeSpelled(Directives(r.headers[first.value]))
    && (SomeCapitalName(Directives(r.headers[first.value])) || LaterNames(r.headers, first.value))
  }

  /** A directive of the first field shows a mark inside another word, and no field forbids. */
  ghost predicate MarkIsMisread(r: Response) {
    var first := FirstControl(r.headers);
    && Eligible(r) && first.Some? && SomeMereSpelling(Directives(r.headers[first.value]))
    && !SomeNames(Directives(r.headers[first.value])) && !LaterNames(r.headers, first.value)
  }

  lemma PermittedByFirstAndLater(r: Response)
    ensures var first := FirstControl(r.headers);
            Permitted(r) <==>
              Eligible(r)
              && (first.Some? ==> !SomeNames(Directives(r.headers[first.value])) && !LaterNames(r.headers, first.value))
  {
    var first := FirstControl(r.headers);
    if first.Some? && !Permitted(r) && Eligible(r) {
      var i :| 0 <= i < |r.headers| && IsControl(r.headers[i]) && SomeNames(Directives(r.headers[i]));
      assert first.value <= i;
    }
  }

  lemma NamedOrCapital(tokens: seq<string>)
    requires !SomeSpelled(tokens)
    ensures SomeNames(tokens) <==> SomeCapitalName(tokens)
  {
    if k :| 0 <= k < |tokens| && Names(tokens[k]) {
      if DirectiveName(tokens[k]) == Lower(DirectiveName(tokens[k])) {
        LowerCaseIsSpelled(tokens[k]);
      }
    }
  }

  /** The decision is wrong in exactly two ways: a mark is missed and the response stored, or misread and it is not. */
  lemma DecisionAgainstDirectives(r: Response)
    ensures CacheableResponse(r) && !Permitted(r) <==> MarkIsMissed(r)
    ensures !CacheableResponse(r) && Permitted(r) <==> MarkIsMisread(r)
  {
    DecisionByDirective(r);
    PermittedByFirstAndLater(r);
    var first := FirstControl(r.headers);
    if first.Some? && !SomeSpelled(Directives(r.headers[first.value])) {
      NamedOrCapital(Directives(r.headers[first.value]));
    }
  }

  // ---------- All three cases occur ----------

  lemma OneToken(v: string)
    requires v != "" && ',' !in v && !Blank(v[0]) && !Blank(v[|v| - 1])
    ensures Tokens(Split(v)) == [v]
  {
    SplitWithoutComma(v);
    TrimCut(v, 0, |v|);
    assert [v][1..] == [] && v[0..|v|] == v;
  }

  function Controlled(values: seq<string>): Response {
    Response(200, 11, true, seq(|values|, i requires 0 <= i < |values| => Header(CACHE_CONTROL, values[i])), "")
  }

  lemma ControlledIsEligible(values: seq<string>)
    requires values != []
    ensures Eligible(Controlled(values)) && FirstControl(Controlled(values).headers) == Some(0)
  {
    assert Lower(CACHE_CONTROL)[0] == 'c' && Lower(SET_COOKIE)[0] == 's';
  }

  lemma OneFieldOneWord(v: string)
    requires v != "" && ',' !in v && !Blank(v[0]) && !Blank(v[|v| - 1])
    ensures MarkIsMissed(Controlled([v])) <==> !Spelled(v) && Names(v) && DirectiveName(v) != Lower(DirectiveName(v))
    ensures MarkIsMisread(Controlled([v])) <==> Spelled(v) && !Names(v)
  {
    ControlledIsEligible([v]);
    OneToken(v);
    OneWord(v);
  }

  lemma OneWord(v: string)
    ensures SomeSpelled([v]) <==> Spelled(v)
    ensures SomeNames([v]) <==> Names(v)
    ensures SomeMereSpelling([v]) <==> Spelled(v) && !Names(v)
    ensures SomeCapitalName([v]) <==> Names(v) && DirectiveName(v) != Lower(DirectiveName(v))
  {
    assert [v][0] == v;
  }

  /** `Private`, and any other spelling of it without a lower-case p, is missed. */
  lemma CapitalIsMissed(v: string)
    requires Lower(v) == PRIVATE && 'p' !in v
    ensures MarkIsMissed(Controlled([v]))
  {
    LowerHas(v);
    OneFieldOneWord(v);
    NoEquals(v);
    NotSpelled(v);
    assert Lower(v)[0] in PRIVATE && v[0] in v;
  }

  /** `private` in a later field is missed when the first holds one word without a mark. */
  lemma LaterIsMissed(v: string)
    requires v != "" && ',' !in v && !Blank(v[0]) && !Blank(v[|v| - 1]) && !Spelled(v)
    ensures MarkIsMissed(Controlled([v, PRIVATE]))
  {
    var r := Controlled([v, PRIVATE]);
    ControlledIsEligible([v, PRIVATE]);
    OneToken(v);
    OneWord(v);
    PrivateIsLower();
    WordForbids(PRIVATE);
    assert r.headers[0].value == v && r.headers[1].value == PRIVATE && IsControl(r.headers[1]);
  }

  lemma WordForbids(v: string)
    requires Lower(v) == PRIVATE
    ensures SomeNames(Tokens(Split(v)))
  {
    LowerHas(v);
    OneToken(v);
    NoEquals(v);
    OneWord(v);
  }

  lemma PrivateIsLower()
    ensures Lower(PRIVATE) == PRIVATE
  {
  }

  /** `privateer`, and any other longer word with a mark in it, is misread. */
  lemma LongerWordIsMisread(v: string)
    requires Spelled(v) && |v| > 8 && '=' !in v && ',' !in v && !Blank(v[0]) && !Blank(v[|v| - 1])
    ensures MarkIsMisread(Controlled([v]))
  {
    OneFieldOneWord(v);
    NoEquals(v);
    assert |Lower(v)| == |v|;
  }

  lemma Spellings()
    ensures Lower("Private") == PRIVATE && 'p' !in "Private"
    ensures PRIVATE <= "privateer"
  {
  }

  /** A response that is stored though it says `Private`. */
  lemma CapitalCase() returns (r: Response)
    ensures MarkIsMissed(r) && CacheableResponse(r) && !Permitted(r)
  {
    Spellings();
    CapitalIsMissed("Private");
    r := Controlled(["Private"]);
    DecisionAgainstDirectives(r);
  }

  /** One that is stored though its second field says `private`. */
  lemma LaterCase() returns (r: Response)
    ensures MarkIsMissed(r) && CacheableResponse(r) && !Permitted(r)
  {
    NotSpelled("a");
    LaterIsMissed("a");
    r := Controlled(["a", PRIVATE]);
    DecisionAgainstDirectives(r);
  }

  /** One that is not stored for the word `privateer`. */
  lemma LongerCase() returns (r: Response)
    ensures MarkIsMisread(r) && !CacheableResponse(r) && Permitted(r)
  {
    Spellings();
    assert "privateer"[0..] == "privateer";
    LongerWordIsMisread("privateer");
    r := Controlled(["privateer"]);
    DecisionAgainstDirectives(r);
  }

  /** A spelling of a word has its length and no character but its letters, in either case. */
  lemma LowerHas(v: string)
    requires Lower(v) == PRIVATE
    ensures v != "" && ',' !in v && '=' !in v && 'n' !in v && !Blank(v[0]) && !Blank(v[|v| - 1])
  {
    assert |v| == |Lower(v)| == 7;
    forall i | 0 <= i < |v| ensures LowerChar(v[i]) in PRIVATE {
      assert Lower(v)[i] == LowerChar(v[i]) && Lower(v)[i] == PRIVATE[i];
    }
  }

  lemma {:induction false} NoEquals(v: string)
    requires '=' !in v
    ensures DirectiveName(v) == v
  {
    if v != "" {
      assert v == [v[0]] + v[1..];
      assert forall c :: c in v[1..] ==> c in v;
      NoEquals(v[1..]);
    }
  }

  lemma FirstLetter(v: string, m: string)
    requires Contains(v, m) && m != ""
    ensures m[0] in v
  {
    ContainsMeans(v, m);
    var p: nat :| OccursAt(v, m, p);
    assert m[0] == v[p];
  }

  /** Without a lower-case p or n there is no mark. */
  lemma NotSpelled(v: string)
    requires 'p' !in v && 'n' !in v
    ensures !Spelled(v)
  {
    if Contains(v, NO_STORE) {
      FirstLetter(v, NO_STORE);
    } else if Contains(v, PRIVATE) {
      FirstLetter(v, PRIVATE);
    }
  }
}
