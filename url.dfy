/**
 * The pieces of URL text the image service writes: integers in decimal
 * (how a template literal prints an integral Number), and the query string
 * of name=value pairs joined by '&'.  The parsers here are the inverse
 * readings of what the service writes.
 */
module Url {
  import opened Wrappers

  // ---------------------------------------------------------------------
  // Integers in decimal (the ECMA-262 section "Number::toString",
  // for integral values below 10^21)

  function DigitChar(d: int): (c: char)
    requires 0 <= d < 10
    ensures '0' <= c <= '9'
  {
    "0123456789"[d]
  }

  function NatToString(n: nat): (r: string)
    ensures |r| >= 1
    ensures forall c :: c in r ==> '0' <= c <= '9'
    decreases n
  {
    if n < 10 then [DigitChar(n)] else NatToString(n / 10) + [DigitChar(n % 10)]
  }

  /** The decimal text of an integer, with a leading '-' when it is negative. */
  function NumberToString(n: int): (r: string)
  {
    if n < 0 then "-" + NatToString(-n) else NatToString(n)
  }

  /** Decimal text holds only digits and '-', so none of the URL delimiters. */
  lemma NumberToStringAlphabet(n: int)
    ensures forall c :: c in NumberToString(n) ==> c == '-' || '0' <= c <= '9'
  {
    if n < 0 {
      assert forall c :: c in NumberToString(n) ==> c == '-' || c in NatToString(-n);
    }
  }

  function DigitValue(c: char): (r: Option<nat>)
    ensures r.Some? ==> r.value < 10
  {
    if '0' <= c <= '9' then Some(c as int - '0' as int) else None
  }

  /** The value of a non-empty run of decimal digits. */
  function ParseNat(s: string): (r: Option<nat>)
    decreases |s|
  {
    if |s| == 0 then None
    else
      match DigitValue(s[|s| - 1])
      case None => None
      case Some(d) =>
        if |s| == 1 then Some(d)
        else
          match ParseNat(s[..|s| - 1])
          case Some(v) => Some(10 * v + d)
          case None => None
  }

  /** The value of decimal text, optionally with a leading '-'. */
  function ParseInteger(s: string): (r: Option<int>)
  {
    if |s| > 0 && s[0] == '-' then
      match ParseNat(s[1..])
      case Some(v) => Some(-(v as int))
      case None => None
    else
      match ParseNat(s)
      case Some(v) => Some(v)
      case None => None
  }

  lemma DigitRoundTrip(d: int)
    requires 0 <= d < 10
    ensures DigitValue(DigitChar(d)) == Some(d)
  {
  }

  lemma {:induction false} NatRoundTrip(n: nat)
    ensures ParseNat(NatToString(n)) == Some(n)
    decreases n
  {
    var s := NatToString(n);
    if n < 10 {
      DigitRoundTrip(n);
    } else {
      var front := NatToString(n / 10);
      assert s == front + [DigitChar(n % 10)];
      assert s[|s| - 1] == DigitChar(n % 10);
      assert s[..|s| - 1] == front;
      DigitRoundTrip(n % 10);
      NatRoundTrip(n / 10);
    }
  }

  /** Reading the decimal text of an integer gives the integer back. */
  lemma NumberRoundTrip(n: int)
    ensures ParseInteger(NumberToString(n)) == Some(n)
  {
    var s := NumberToString(n);
    if n < 0 {
      NatRoundTrip(-n);
      assert s[0] == '-' && s[1..] == NatToString(-n);
    } else {
      NatRoundTrip(n);
      assert s == NatToString(n);
      assert s[0] in NatToString(n);
      assert '0' <= s[0] <= '9';
    }
  }

  // ---------------------------------------------------------------------
  // Splitting at a delimiter

  /** The position of the first occurrence of c, or the length when there is none. */
  function IndexOf(s: string, c: char): (i: nat)
    ensures i <= |s|
    ensures i < |s| ==> s[i] == c
    ensures forall k :: 0 <= k < i ==> s[k] != c
    ensures i == |s| <==> c !in s
    decreases |s|
  {
    if |s| == 0 || s[0] == c then 0 else 1 + IndexOf(s[1..], c)
  }

  lemma IndexOfAfter(a: string, c: char, b: string)
    requires c !in a
    ensures IndexOf(a + [c] + b, c) == |a|
  {
    var s := a + [c] + b;
    var i := IndexOf(s, c);
    assert s[|a|] == c;
  }

  /** The pieces between the occurrences of the delimiter. */
  function Split(s: string, sep: char): (parts: seq<string>)
    ensures |parts| >= 1
    decreases |s|
  {
    var i := IndexOf(s, sep);
    if i == |s| then [s] else [s[..i]] + Split(s[i + 1..], sep)
  }

  lemma SplitAfter(a: string, sep: char, b: string)
    requires sep !in a
    ensures Split(a + [sep] + b, sep) == [a] + Split(b, sep)
  {
    var s := a + [sep] + b;
    IndexOfAfter(a, sep, b);
    assert s[..|a|] == a;
    assert s[|a| + 1..] == b;
  }

  // ---------------------------------------------------------------------
  // Query strings

  datatype Param = Param(name: string, value: string)

  function ParamText(p: Param): string
  {
    p.name + "=" + p.value
  }

  /** The parameters written name=value and joined by '&'. */
  function QueryString(ps: seq<Param>): string
    requires |ps| >= 1
  {
    if |ps| == 1 then ParamText(ps[0]) else ParamText(ps[0]) + "&" + QueryString(ps[1..])
  }

  /** A field read as the name before its first '=' and the value after it. */
  function ParseParam(field: string): Param
  {
    var i := IndexOf(field, '=');
    if i == |field| then Param(field, "") else Param(field[..i], field[i + 1..])
  }

  function ParseFields(fields: seq<string>): (ps: seq<Param>)
    ensures |ps| == |fields|
  {
    if |fields| == 0 then [] else [ParseParam(fields[0])] + ParseFields(fields[1..])
  }

  function ParseQuery(q: string): seq<Param>
  {
    ParseFields(Split(q, '&'))
  }

  /** Parameters whose names hold neither delimiter and whose values hold no '&'. */
  predicate Plain(ps: seq<Param>)
  {
    forall k :: 0 <= k < |ps| ==> PlainParam(ps[k])
  }

  /** A name that holds neither delimiter and a value that holds no '&'. */
  predicate PlainParam(p: Param)
  {
    '=' !in p.name && '&' !in p.name && '&' !in p.value
  }

  lemma ParseParamText(p: Param)
    requires '=' !in p.name
    ensures ParseParam(ParamText(p)) == p
  {
    IndexOfAfter(p.name, '=', p.value);
    assert ParamText(p) == p.name + ['='] + p.value;
    assert ParamText(p)[..|p.name|] == p.name;
    assert ParamText(p)[|p.name| + 1..] == p.value;
  }

  /** Reading a query string written from plain parameters gives those parameters back. */
  lemma {:induction false} QueryRoundTrip(ps: seq<Param>)
    requires |ps| >= 1 && Plain(ps)
    ensures ParseQuery(QueryString(ps)) == ps
  {
    var head := ParamText(ps[0]);
    ParseParamText(ps[0]);
    assert '&' !in head by {
      assert forall c :: c in head ==> c in ps[0].name || c == '=' || c in ps[0].value;
    }
    if |ps| == 1 {
      assert Split(head, '&') == [head];
    } else {
      QueryRoundTrip(ps[1..]);
      SplitAfter(head, '&', QueryString(ps[1..]));
      assert QueryString(ps) == head + ['&'] + QueryString(ps[1..]);
      assert ps == [ps[0]] + ps[1..];
    }
  }

  // ---------------------------------------------------------------------
  // Whole addresses

  /** A URL read as the part before the first '?' and the parameters after it. */
  datatype Address = Address(path: string, query: seq<Param>)

  function ParseAddress(url: string): Address
  {
    var i := IndexOf(url, '?');
    if i == |url| then Address(url, []) else Address(url[..i], ParseQuery(url[i + 1..]))
  }

  /** An address written as a path without '?' and plain parameters reads back as that path and those parameters. */
  lemma AddressRoundTrip(path: string, ps: seq<Param>)
    requires '?' !in path && |ps| >= 1 && Plain(ps)
    ensures ParseAddress(path + "?" + QueryString(ps)) == Address(path, ps)
  {
    var url := path + "?" + QueryString(ps);
    IndexOfAfter(path, '?', QueryString(ps));
    assert url == path + ['?'] + QueryString(ps);
    assert url[..|path|] == path;
    assert url[|path| + 1..] == QueryString(ps);
    QueryRoundTrip(ps);
  }
}
