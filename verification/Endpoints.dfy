/** Upstream endpoints as text: the Host header form, the metrics label, and the command-line parser. */
module Endpoints {
  import opened Http

  /** A 16-bit port. */
  type Port = p: int | 0 <= p <= 65535

  datatype Endpoint = Endpoint(host: string, port: Port)

  // ---------- Decimal numerals ----------

  predicate IsDigit(c: char) {
    '0' <= c <= '9'
  }

  predicate AllDigits(s: string) {
    forall i :: 0 <= i < |s| ==> IsDigit(s[i])
  }

  function DigitChar(d: nat): (c: char)
    requires d < 10
    ensures IsDigit(c)
  {
    ('0' as int + d) as char
  }

  /** `std::to_string`. */
  function ToDecimal(n: nat): (s: string)
    ensures s != "" && AllDigits(s)
  {
    if n < 10 then [DigitChar(n)] else ToDecimal(n / 10) + [DigitChar(n % 10)]
  }

  function DecimalValue(s: string): nat
    requires AllDigits(s)
  {
    if s == "" then 0
    else DecimalValue(s[..|s| - 1]) * 10 + (s[|s| - 1] as int - '0' as int)
  }

  lemma {:induction false} DecimalRoundTrip(n: nat)
    ensures DecimalValue(ToDecimal(n)) == n
    ensures n > 0 ==> ToDecimal(n)[0] != '0'
  {
    if n >= 10 {
      DecimalRoundTrip(n / 10);
      var s := ToDecimal(n);
      assert s[..|s| - 1] == ToDecimal(n / 10);
    }
  }

  // ---------- Library searches ----------

  /** `find(c)`. */
  function IndexOf(s: string, c: char): (r: Option<nat>)
    ensures r.None? <==> c !in s
    ensures r.Some? ==> r.value < |s| && s[r.value] == c && c !in s[..r.value]
  {
    assert s[0..] == s;
    FindFrom(s, c, 0)
  }

  /** `rfind(c)`. */
  function LastIndexOf(s: string, c: char): (r: Option<nat>)
    ensures r.None? <==> c !in s
    ensures r.Some? ==> r.value < |s| && s[r.value] == c && c !in s[r.value + 1..]
  {
    if s == "" then None
    else if s[|s| - 1] == c then Some(|s| - 1)
    else
      match LastIndexOf(s[..|s| - 1], c)
      case None => None
      case Some(i) =>
        assert s[i + 1..] == s[..|s| - 1][i + 1..] + [s[|s| - 1]];
        Some(i)
  }

  lemma IndexUnique(s: string, c: char, i: nat)
    requires i < |s| && s[i] == c && c !in s[..i]
    ensures IndexOf(s, c) == Some(i)
  {
    assert c in s;
    var j := IndexOf(s, c).value;
    assert forall k: nat :: k < i ==> s[..i][k] == s[k];
    assert forall k: nat :: k < j ==> s[..j][k] == s[k];
  }

  lemma LastIndexUnique(s: string, c: char, i: nat)
    requires i < |s| && s[i] == c && c !in s[i + 1..]
    ensures LastIndexOf(s, c) == Some(i)
  {
    assert c in s;
    var j := LastIndexOf(s, c).value;
    assert forall k: nat :: i < k < |s| ==> s[k] == s[i + 1..][k - i - 1];
    assert forall k: nat :: j < k < |s| ==> s[k] == s[j + 1..][k - j - 1];
  }

  // ---------- Ports ----------

  datatype Scan = NoMatch | OutOfRange(length: nat) | Parsed(value: nat, length: nat)

  const UINT_MAX := 0xFFFF_FFFF

  /** The length of the longest prefix of digits. */
  function DigitRun(s: string): (n: nat)
    ensures n <= |s| && AllDigits(s[..n])
    ensures n < |s| ==> !IsDigit(s[n])
  {
    if s == "" || !IsDigit(s[0]) then 0
    else
      var m := DigitRun(s[1..]);
      assert s[..m + 1] == [s[0]] + s[1..][..m];
      1 + m
  }

  /** `std::from_chars` into an unsigned int, base ten. */
  function FromChars(s: string): Scan {
    var n := DigitRun(s);
    if n == 0 then NoMatch
    else if DecimalValue(s[..n]) > UINT_MAX then OutOfRange(n)
    else Parsed(DecimalValue(s[..n]), n)
  }

  datatype Parse<T> = Ok(value: T) | BadPort | BadShape | EmptyHost

  function ParsePort(s: string): Parse<Port> {
    match FromChars(s)
    case NoMatch => BadPort
    case OutOfRange(_) => BadPort
    case Parsed(port, end) =>
      if end != |s| || port == 0 || port > 65535 then BadPort else Ok(port)
  }

  /** Exactly the digit strings whose value is a usable port, leading zeros included. */
  lemma PortAccepted(s: string)
    ensures ParsePort(s).Ok? <==> s != "" && AllDigits(s) && 1 <= DecimalValue(s) <= 65535
    ensures ParsePort(s).Ok? ==> ParsePort(s).value == DecimalValue(s)
    ensures ParsePort(s).Ok? || ParsePort(s).BadPort?
  {
    var n := DigitRun(s);
    if n == |s| {
      assert s[..n] == s;
    }
  }

  // ---------- Endpoints ----------

  /** The Host header sent upstream: a host with a colon is bracketed. */
  function HostHeader(e: Endpoint): string {
    if IndexOf(e.host, ':').Some?
    then "[" + e.host + "]:" + ToDecimal(e.port)
    else e.host + ":" + ToDecimal(e.port)
  }

  /** The metrics label: never bracketed. */
  function Label(e: Endpoint): string {
    e.host + ":" + ToDecimal(e.port)
  }

  function ParseUpstream(value: string): Parse<Endpoint> {
    if value != "" && value[0] == '[' then
      var closing := IndexOf(value, ']');
      if closing.None? || closing.value + 1 >= |value| || value[closing.value + 1] != ':' then BadShape
      else Finish(value[1..closing.value], value[closing.value + 2..])
    else
      var separator := LastIndexOf(value, ':');
      if separator.None? || IndexOf(value, ':') != separator then BadShape
      else Finish(value[..separator.value], value[separator.value + 1..])
  }

  function Finish(host: string, port: string): Parse<Endpoint> {
    if host == "" then EmptyHost
    else
      match ParsePort(port)
      case Ok(p) => Ok(Endpoint(host, p))
      case _ => BadPort
  }

  /** A usable port written in digits. */
  predicate Writes(port: string, p: Port) {
    port != "" && AllDigits(port) && 1 <= p && DecimalValue(port) == p
  }

  /** `[host]:port`, where the host ends at the first closing bracket. */
  ghost predicate Bracketed(value: string, e: Endpoint) {
    exists port :: value == "[" + e.host + "]:" + port && Writes(port, e.port) && e.host != "" && ']' !in e.host
  }

  /** `host:port` with one colon, and no bracket in front. */
  ghost predicate Unbracketed(value: string, e: Endpoint) {
    exists port :: value == e.host + ":" + port && Writes(port, e.port) && e.host != "" && e.host[0] != '[' && ':' !in e.host
  }

  lemma FinishExactly(host: string, port: string, e: Endpoint)
    ensures Finish(host, port) == Ok(e) <==> host == e.host && host != "" && Writes(port, e.port)
  {
    PortAccepted(port);
  }

  lemma DigitsHaveNoColon(port: string, p: Port)
    requires Writes(port, p)
    ensures ':' !in port
  {
  }

  /** Exactly the arguments of these two shapes are accepted, as the endpoint they spell. */
  lemma AcceptedExactly(value: string, e: Endpoint)
    ensures ParseUpstream(value) == Ok(e) <==> Bracketed(value, e) || Unbracketed(value, e)
  {
    if ParseUpstream(value) == Ok(e) {
      AcceptedHasShape(value, e);
    }
    if port :| value == "[" + e.host + "]:" + port && Writes(port, e.port) && e.host != "" && ']' !in e.host {
      BracketedIsAccepted(e, port);
    }
    if port :| value == e.host + ":" + port && Writes(port, e.port) && e.host != "" && e.host[0] != '[' && ':' !in e.host {
      UnbracketedIsAccepted(e, port);
    }
  }

  /** An argument is refused for its host exactly if it has one of the two shapes and nothing before the colon. */
  lemma EmptyHostExactly(value: string)
    ensures ParseUpstream(value).EmptyHost? <==>
            || (|value| >= 3 && value[..3] == "[]:")
            || (value != "" && value[0] == ':' && ':' !in value[1..])
  {
    if value != "" && value[0] == '[' {
      var closing := IndexOf(value, ']');
      if closing.Some? && closing.value == 1 && |value| >= 3 {
        assert value[..3] == [value[0], value[1], value[2]];
      }
      if |value| >= 3 && value[..3] == "[]:" {
        assert value[..3][1] == value[1] && value[..3][2] == value[2];
        IndexUnique(value, ']', 1);
      }
    } else if value != "" && value[0] == ':' {
      IndexUnique(value, ':', 0);
      if ':' !in value[1..] {
        LastIndexUnique(value, ':', 0);
      }
    }
  }

  lemma AcceptedHasShape(value: string, e: Endpoint)
    requires ParseUpstream(value) == Ok(e)
    ensures Bracketed(value, e) || Unbracketed(value, e)
  {
    if value[0] == '[' {
      var closing := IndexOf(value, ']').value;
      var host, port := value[1..closing], value[closing + 2..];
      FinishExactly(host, port, e);
      assert value[..closing] == "[" + host;
      assert value == "[" + host + "]:" + port;
    } else {
      var separator := LastIndexOf(value, ':').value;
      var host, port := value[..separator], value[separator + 1..];
      FinishExactly(host, port, e);
      assert value == host + ":" + port;
      assert host[0] == value[0];
    }
  }

  lemma BracketedIsAccepted(e: Endpoint, port: string)
    requires Writes(port, e.port) && e.host != "" && ']' !in e.host
    ensures ParseUpstream("[" + e.host + "]:" + port) == Ok(e)
  {
    var value, n := "[" + e.host + "]:" + port, |e.host|;
    assert value[n + 1] == ']' && value[n + 2] == ':' && value[..n + 1] == "[" + e.host;
    IndexUnique(value, ']', n + 1);
    assert value[1..n + 1] == e.host && value[n + 3..] == port;
    FinishExactly(e.host, port, e);
  }

  lemma UnbracketedIsAccepted(e: Endpoint, port: string)
    requires Writes(port, e.port) && e.host != "" && e.host[0] != '[' && ':' !in e.host
    ensures ParseUpstream(e.host + ":" + port) == Ok(e)
  {
    var value, n := e.host + ":" + port, |e.host|;
    assert value[n] == ':' && value[..n] == e.host && value[n + 1..] == port && value[0] == e.host[0];
    DigitsHaveNoColon(port, e.port);
    IndexUnique(value, ':', n);
    LastIndexUnique(value, ':', n);
    FinishExactly(e.host, port, e);
  }

  /** The hosts whose printed form reads back: the ones a printed bracket cannot be confused with. */
  predicate Printable(host: string) {
    host != "" && (if ':' in host then ']' !in host else host[0] != '[')
  }

  lemma DigitsHaveNoPunctuation(n: nat)
    ensures ':' !in ToDecimal(n) && ']' !in ToDecimal(n)
  {
  }

  lemma PrintedPort(p: Port)
    ensures p > 0 ==> ParsePort(ToDecimal(p)) == Ok(p)
    ensures p == 0 ==> ParsePort(ToDecimal(p)) == BadPort
  {
    DecimalRoundTrip(p);
    PortAccepted(ToDecimal(p));
  }

  lemma BracketedShape(e: Endpoint)
    requires ':' in e.host
    ensures var v, n := HostHeader(e), |e.host|;
            && |v| >= n + 3 && v[0] == '[' && v[1..n + 1] == e.host
            && v[n + 1] == ']' && v[n + 2] == ':' && v[n + 3..] == ToDecimal(e.port)
  {
    assert HostHeader(e) == "[" + e.host + "]:" + ToDecimal(e.port);
  }

  lemma BracketedParse(e: Endpoint)
    requires ':' in e.host && ']' !in e.host
    ensures ParseUpstream(HostHeader(e)) == Finish(e.host, ToDecimal(e.port))
  {
    var v, n := HostHeader(e), |e.host|;
    BracketedShape(e);
    assert v[..n + 1] == [v[0]] + v[1..n + 1];
    IndexUnique(v, ']', n + 1);
  }

  lemma BracketedConfusion(e: Endpoint)
    requires ':' in e.host && ']' in e.host
    ensures ParseUpstream(HostHeader(e)) != Ok(e)
  {
    var v, n := HostHeader(e), |e.host|;
    BracketedShape(e);
    var i := IndexOf(e.host, ']').value;
    assert v[i + 1] == ']' by {
      assert v[1..n + 1][i] == v[i + 1];
    }
    EarlyBracket(v, i + 1);
    assert i < n;
  }

  lemma EarlyBracket(v: string, i: nat)
    requires 0 < i < |v| && v[0] == '[' && v[i] == ']'
    ensures ParseUpstream(v).Ok? ==> |ParseUpstream(v).value.host| < i
  {
    var closing := IndexOf(v, ']').value;
    assert forall k: nat :: k < closing ==> v[..closing][k] == v[k];
  }

  lemma PlainShape(e: Endpoint)
    requires ':' !in e.host
    ensures var v, n := HostHeader(e), |e.host|;
            && |v| >= n + 1 && v[..n] == e.host && v[n] == ':' && v[n + 1..] == ToDecimal(e.port)
            && IndexOf(v, ':') == LastIndexOf(v, ':') == Some(n)
  {
    var v, n := HostHeader(e), |e.host|;
    assert v == e.host + ":" + ToDecimal(e.port);
    assert v[..n] == e.host && v[n + 1..] == ToDecimal(e.port);
    DigitsHaveNoPunctuation(e.port);
    IndexUnique(v, ':', n);
    LastIndexUnique(v, ':', n);
  }

  lemma PlainConfusion(e: Endpoint)
    requires ':' !in e.host && e.host != "" && e.host[0] == '['
    ensures ParseUpstream(HostHeader(e)) != Ok(e)
  {
    var v, n := HostHeader(e), |e.host|;
    PlainShape(e);
    assert v[0] == v[..n][0];
    ShortHost(v, n);
  }

  /** A bracketed reading ends its host before the last colon. */
  lemma ShortHost(v: string, n: nat)
    requires v != "" && v[0] == '[' && LastIndexOf(v, ':') == Some(n)
    ensures ParseUpstream(v).Ok? ==> |ParseUpstream(v).value.host| < n
  {
    var closing := IndexOf(v, ']');
    if closing.Some? && closing.value + 1 < |v| && v[closing.value + 1] == ':' {
      LastIndexAfter(v, ':', closing.value + 1);
    }
  }

  lemma LastIndexAfter(s: string, c: char, i: nat)
    requires i < |s| && s[i] == c
    ensures LastIndexOf(s, c).Some? && i <= LastIndexOf(s, c).value
  {
    var j := LastIndexOf(s, c).value;
    assert forall k: nat :: j < k < |s| ==> s[k] == s[j + 1..][k - j - 1];
  }

  /** Printing then parsing gives the endpoint back exactly for a usable port and a printable host. */
  lemma PrintThenParse(e: Endpoint)
    ensures ParseUpstream(HostHeader(e)) == Ok(e) <==> e.port > 0 && Printable(e.host)
  {
    PrintedPort(e.port);
    if ':' in e.host {
      if ']' in e.host { BracketedConfusion(e); } else { BracketedParse(e); }
    } else {
      PlainShape(e);
      if e.host != "" {
        assert HostHeader(e)[0] == HostHeader(e)[..|e.host|][0];
        if e.host[0] == '[' { PlainConfusion(e); }
      }
    }
  }

  /** Doubled opening brackets around a host without a colon, as in "[[a]:80". */
  predicate DoublyBracketed(value: string) {
    && |value| >= 2 && value[0] == '[' && value[1] == '['
    && IndexOf(value, ']').Some? && ':' !in value[..IndexOf(value, ']').value]
  }

  lemma AcceptedHost(value: string)
    requires ParseUpstream(value).Ok?
    ensures var e := ParseUpstream(value).value;
            e.port > 0 && (Printable(e.host) <==> !DoublyBracketed(value))
  {
    var e := ParseUpstream(value).value;
    if value[0] == '[' {
      var closing := IndexOf(value, ']').value;
      PortAccepted(value[closing + 2..]);
      assert e.host == value[1..closing];
      assert value[..closing] == [value[0]] + e.host;
      assert e.host[0] == value[1];
    } else {
      var separator := LastIndexOf(value, ':').value;
      PortAccepted(value[separator + 1..]);
      assert e.host == value[..separator] && e.host[0] == value[0];
    }
  }

  /** An accepted argument, printed and parsed again, names the same endpoint exactly when it is not doubly bracketed. */
  lemma ParseThenPrint(value: string)
    requires ParseUpstream(value).Ok?
    ensures ParseUpstream(HostHeader(ParseUpstream(value).value)) == ParseUpstream(value) <==> !DoublyBracketed(value)
  {
    AcceptedHost(value);
    PrintThenParse(ParseUpstream(value).value);
  }

  /** Such arguments are accepted. */
  lemma DoublyBracketedIsAccepted()
    ensures DoublyBracketed("[[a]:8") && ParseUpstream("[[a]:8") == Ok(Endpoint("[a", 8))
  {
    var v := "[[a]:8";
    assert v[..3] == "[[a" && v[1..3] == "[a" && v[5..] == "8";
    IndexUnique(v, ']', 3);
    assert Finish("[a", "8") == Ok(Endpoint("[a", 8)) by {
      PrintedPort(8);
    }
  }

  /** Distinct endpoints have distinct metrics labels, whatever the host contains. */
  lemma LabelInjective(a: Endpoint, b: Endpoint)
    requires Label(a) == Label(b)
    ensures a == b
  {
    DigitsHaveNoPunctuation(a.port);
    DigitsHaveNoPunctuation(b.port);
    var s := Label(a);
    assert s[|a.host|] == ':' && s[|a.host| + 1..] == ToDecimal(a.port);
    assert s[|b.host|] == ':' && s[|b.host| + 1..] == ToDecimal(b.port);
    LastIndexUnique(s, ':', |a.host|);
    LastIndexUnique(s, ':', |b.host|);
    assert s[..|a.host|] == a.host && s[..|b.host|] == b.host;
    DecimalRoundTrip(a.port);
    DecimalRoundTrip(b.port);
  }
}
