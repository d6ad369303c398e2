/**
 * encodeURIComponent (the ECMA-262 sections "encodeURIComponent" and
 * "Encode", with no extra unescaped characters) over UTF-16 strings, and a
 * percent-decoder that undoes it.
 */
module Uri {
  import opened Wrappers
  import opened Utf16

  /** The exception encodeURIComponent throws on an unpaired surrogate. */
  datatype URIError = URIError

  /** The ASCII word characters and "-.!~*'()": left as they are. */
  predicate IsUnreserved(u: u16)
  {
    || (0x41 <= u <= 0x5A) || (0x61 <= u <= 0x7A) || (0x30 <= u <= 0x39)
    || u == 0x5F || u == 0x2D || u == 0x2E || u == 0x21 || u == 0x7E
    || u == 0x2A || u == 0x27 || u == 0x28 || u == 0x29
  }

  /** The same set, as characters of the encoded result. */
  predicate IsUnreservedChar(c: char)
  {
    c as int < 0x80 && IsUnreserved(c as int as u16)
  }

  /** The result of CodePointAt (the ECMA-262 section "CodePointAt"). */
  datatype CodePointRecord = CodePointRecord(codePoint: int, codeUnitCount: nat, isUnpairedSurrogate: bool)

  /** CodePointAt: the code point that starts at the given position. */
  function CodePointAt(s: Text, position: nat): (r: CodePointRecord)
    requires position < |s|
    ensures 1 <= r.codeUnitCount <= |s| - position
    ensures !r.isUnpairedSurrogate ==> IsScalar(r.codePoint)
    ensures !r.isUnpairedSurrogate ==> EncodeCodePoint(r.codePoint) == s[position..position + r.codeUnitCount]
  {
    var first := s[position];
    if !IsHighSurrogate(first) && !IsLowSurrogate(first) then
      CodePointRecord(first as int, 1, false)
    else if IsLowSurrogate(first) || position + 1 == |s| then
      CodePointRecord(first as int, 1, true)
    else
      var second := s[position + 1];
      if !IsLowSurrogate(second) then
        CodePointRecord(first as int, 1, true)
      else
        CodePointRecord((first as int - 0xD800) * 0x400 + (second as int - 0xDC00) + 0x1_0000, 2, false)
  }

  /** The UTF-8 transformation of a scalar value (the "UTF-8 Encodings" table of ECMA-262). */
  function Utf8(cp: int): (octets: seq<int>)
    requires IsScalar(cp)
    ensures 1 <= |octets| <= 4
    ensures forall k :: 0 <= k < |octets| ==> 0 <= octets[k] < 0x100
  {
    if cp < 0x80 then [cp]
    else if cp < 0x800 then [0xC0 + cp / 0x40, 0x80 + cp % 0x40]
    else if cp < 0x1_0000 then [0xE0 + cp / 0x1000, 0x80 + (cp / 0x40) % 0x40, 0x80 + cp % 0x40]
    else [0xF0 + cp / 0x4_0000, 0x80 + (cp / 0x1000) % 0x40, 0x80 + (cp / 0x40) % 0x40, 0x80 + cp % 0x40]
  }

  function HexDigit(d: int): (c: char)
    requires 0 <= d < 16
  {
    "0123456789ABCDEF"[d]
  }

  /** "%" and the octet as two upper-case hexadecimal digits. */
  function PercentOctet(b: int): (r: string)
    requires 0 <= b < 0x100
    ensures |r| == 3
  {
    ['%', HexDigit(b / 16), HexDigit(b % 16)]
  }

  function PercentOctets(octets: seq<int>): (r: string)
    requires forall k :: 0 <= k < |octets| ==> 0 <= octets[k] < 0x100
    ensures |r| == 3 * |octets|
  {
    if |octets| == 0 then "" else PercentOctet(octets[0]) + PercentOctets(octets[1..])
  }

  /** encodeURIComponent: the string with every code point outside the unreserved set percent-encoded as UTF-8, or a URIError. */
  function EncodeURIComponent(s: Text): (r: Result<string, URIError>)
    decreases |s|
  {
    if |s| == 0 then Ok("")
    else if IsUnreserved(s[0]) then
      match EncodeURIComponent(s[1..])
      case Ok(rest) => Ok([s[0] as int as char] + rest)
      case Err(e) => Err(e)
    else
      var cp := CodePointAt(s, 0);
      if cp.isUnpairedSurrogate then Err(URIError)
      else
        match EncodeURIComponent(s[cp.codeUnitCount..])
        case Ok(rest) => Ok(PercentOctets(Utf8(cp.codePoint)) + rest)
        case Err(e) => Err(e)
  }

  /** encodeURIComponent succeeds exactly on strings without unpaired surrogates. */
  lemma {:induction false} EncodeOkIffWellFormed(s: Text)
    ensures EncodeURIComponent(s).Ok? <==> WellFormed(s)
    decreases |s|
  {
    if |s| > 0 {
      var cp := CodePointAt(s, 0);
      if IsHighSurrogate(s[0]) && |s| >= 2 && IsLowSurrogate(s[1]) {
        EncodeOkIffWellFormed(s[2..]);
      } else if !IsHighSurrogate(s[0]) && !IsLowSurrogate(s[0]) {
        EncodeOkIffWellFormed(s[1..]);
      }
    }
  }

  /** Every character of an encoding is unreserved or part of a "%XX" escape; in particular none of "?&=/#%" stands for itself. */
  lemma {:induction false} EncodedAlphabet(s: Text)
    requires EncodeURIComponent(s).Ok?
    ensures forall c :: c in EncodeURIComponent(s).value ==> IsUnreservedChar(c) || c == '%'
    decreases |s|
  {
    if |s| > 0 {
      if IsUnreserved(s[0]) {
        EncodedAlphabet(s[1..]);
      } else {
        var cp := CodePointAt(s, 0);
        EncodedAlphabet(s[cp.codeUnitCount..]);
        PercentOctetsAlphabet(Utf8(cp.codePoint));
      }
    }
  }

  lemma {:induction false} PercentOctetsAlphabet(octets: seq<int>)
    requires forall k :: 0 <= k < |octets| ==> 0 <= octets[k] < 0x100
    ensures forall c :: c in PercentOctets(octets) ==> IsUnreservedChar(c) || c == '%'
  {
    if |octets| > 0 {
      PercentOctetsAlphabet(octets[1..]);
      var b := octets[0];
      assert HexDigit(b / 16) in "0123456789ABCDEF";
      assert HexDigit(b % 16) in "0123456789ABCDEF";
    }
  }

  // ---------------------------------------------------------------------
  // Decoding

  function HexValue(c: char): (r: Option<int>)
    ensures r.Some? ==> 0 <= r.value < 16
  {
    if '0' <= c <= '9' then Some(c as int - '0' as int)
    else if 'A' <= c <= 'F' then Some(c as int - 'A' as int + 10)
    else if 'a' <= c <= 'f' then Some(c as int - 'a' as int + 10)
    else None
  }

  /** The octet written as "%XX" at characters 3k, 3k+1, 3k+2. */
  function OctetAt(e: string, k: nat): (r: Option<int>)
    ensures r.Some? ==> 0 <= r.value < 0x100
  {
    if |e| < 3 * k + 3 || e[3 * k] != '%' then None
    else
      match (HexValue(e[3 * k + 1]), HexValue(e[3 * k + 2]))
      case (Some(hi), Some(lo)) => Some(16 * hi + lo)
      case _ => None
  }

  /** The six payload bits of the continuation octet at position k. */
  function ContinuationAt(e: string, k: nat): (r: Option<int>)
    ensures r.Some? ==> 0 <= r.value < 0x40
  {
    match OctetAt(e, k)
    case Some(b) => if 0x80 <= b < 0xC0 then Some(b - 0x80) else None
    case None => None
  }

  /** The scalar value whose UTF-8 octets are escaped at the start of e, and how many octets it took. */
  function DecodeSequence(e: string): (r: Option<(int, nat)>)
    ensures r.Some? ==> IsScalar(r.value.0) && 1 <= r.value.1 <= 4 && 3 * r.value.1 <= |e|
  {
    match OctetAt(e, 0)
    case None => None
    case Some(lead) =>
      var decoded: Option<(int, nat)> :=
        if lead < 0x80 then Some((lead, 1))
        else if 0xC0 <= lead < 0xE0 then
          match ContinuationAt(e, 1)
          case Some(c1) => Some(((lead - 0xC0) * 0x40 + c1, 2))
          case None => None
        else if 0xE0 <= lead < 0xF0 then
          match (ContinuationAt(e, 1), ContinuationAt(e, 2))
          case (Some(c1), Some(c2)) => Some(((lead - 0xE0) * 0x1000 + c1 * 0x40 + c2, 3))
          case _ => None
        else if 0xF0 <= lead < 0xF8 then
          match (ContinuationAt(e, 1), ContinuationAt(e, 2), ContinuationAt(e, 3))
          case (Some(c1), Some(c2), Some(c3)) => Some(((lead - 0xF0) * 0x4_0000 + c1 * 0x1000 + c2 * 0x40 + c3, 4))
          case _ => None
        else None;
      match decoded
      case Some((cp, n)) => if IsScalar(cp) && 3 * n <= |e| then Some((cp, n)) else None
      case None => None
  }

  /**
   * Percent-decoding: each "%XX" run is read as UTF-8 and turned into its
   * code units; any other character stands for itself.  None for a
   * malformed escape.
   */
  function PercentDecode(e: string): (r: Option<Text>)
    decreases |e|
  {
    if |e| == 0 then Some([])
    else if e[0] != '%' then
      match PercentDecode(e[1..])
      case Some(rest) => Some(CharUnits(e[0]) + rest)
      case None => None
    else
      match DecodeSequence(e)
      case None => None
      case Some((cp, n)) =>
        match PercentDecode(e[3 * n..])
        case Some(rest) => Some(EncodeCodePoint(cp) + rest)
        case None => None
  }

  lemma HexRoundTrip(b: int)
    requires 0 <= b < 0x100
    ensures HexValue(HexDigit(b / 16)) == Some(b / 16)
    ensures HexValue(HexDigit(b % 16)) == Some(b % 16)
  {
  }

  lemma {:induction false} PercentOctetsAt(octets: seq<int>, rest: string, k: nat)
    requires forall i :: 0 <= i < |octets| ==> 0 <= octets[i] < 0x100
    requires k < |octets|
    ensures OctetAt(PercentOctets(octets) + rest, k) == Some(octets[k])
  {
    if k == 0 {
      HexRoundTrip(octets[0]);
    } else {
      var tail := PercentOctets(octets[1..]) + rest;
      assert PercentOctets(octets) + rest == PercentOctet(octets[0]) + tail;
      OctetAtShift(PercentOctet(octets[0]), tail, k);
      PercentOctetsAt(octets[1..], rest, k - 1);
    }
  }

  /** Three characters in front move every octet one place along. */
  lemma OctetAtShift(head: string, tail: string, k: nat)
    requires |head| == 3 && k >= 1
    ensures OctetAt(head + tail, k) == OctetAt(tail, k - 1)
  {
    var e := head + tail;
    assert |e| < 3 * k + 3 <==> |tail| < 3 * (k - 1) + 3;
    if |e| >= 3 * k + 3 {
      assert e[3 * k] == tail[3 * (k - 1)];
      assert e[3 * k + 1] == tail[3 * (k - 1) + 1];
      assert e[3 * k + 2] == tail[3 * (k - 1) + 2];
    }
  }

  /** Decoding the escapes of one code point's UTF-8 octets gives the code point back. */
  lemma DecodeSequenceOfUtf8(cp: int, rest: string)
    requires IsScalar(cp)
    ensures DecodeSequence(PercentOctets(Utf8(cp)) + rest) == Some((cp, |Utf8(cp)|))
  {
    var os := Utf8(cp);
    var e := PercentOctets(os) + rest;
    forall k | 0 <= k < |os| ensures OctetAt(e, k) == Some(os[k]) {
      PercentOctetsAt(os, rest, k);
    }
    if cp < 0x80 {
      DecodeOne(e, cp);
    } else if cp < 0x800 {
      DecodeTwo(e, cp);
    } else if cp < 0x1_0000 {
      DecodeThree(e, cp);
    } else {
      DecodeFour(e, cp);
    }
  }

  lemma DecodeOne(e: string, cp: int)
    requires 0 <= cp < 0x80 && OctetAt(e, 0) == Some(cp)
    ensures DecodeSequence(e) == Some((cp, 1))
  {
  }

  lemma DecodeTwo(e: string, cp: int)
    requires 0x80 <= cp < 0x800
    requires OctetAt(e, 0) == Some(0xC0 + cp / 0x40) && OctetAt(e, 1) == Some(0x80 + cp % 0x40)
    ensures DecodeSequence(e) == Some((cp, 2))
  {
    assert ContinuationAt(e, 1) == Some(cp % 0x40);
  }

  lemma DecodeThree(e: string, cp: int)
    requires IsScalar(cp) && 0x800 <= cp < 0x1_0000
    requires OctetAt(e, 0) == Some(0xE0 + cp / 0x1000)
    requires OctetAt(e, 1) == Some(0x80 + (cp / 0x40) % 0x40)
    requires OctetAt(e, 2) == Some(0x80 + cp % 0x40)
    ensures DecodeSequence(e) == Some((cp, 3))
  {
    assert ContinuationAt(e, 1) == Some((cp / 0x40) % 0x40);
    assert ContinuationAt(e, 2) == Some(cp % 0x40);
    Split64(cp);
  }

  lemma DecodeFour(e: string, cp: int)
    requires IsScalar(cp) && 0x1_0000 <= cp
    requires OctetAt(e, 0) == Some(0xF0 + cp / 0x4_0000)
    requires OctetAt(e, 1) == Some(0x80 + (cp / 0x1000) % 0x40)
    requires OctetAt(e, 2) == Some(0x80 + (cp / 0x40) % 0x40)
    requires OctetAt(e, 3) == Some(0x80 + cp % 0x40)
    ensures DecodeSequence(e) == Some((cp, 4))
  {
    assert ContinuationAt(e, 1) == Some((cp / 0x1000) % 0x40);
    assert ContinuationAt(e, 2) == Some((cp / 0x40) % 0x40);
    assert ContinuationAt(e, 3) == Some(cp % 0x40);
    Split64(cp);
    Split64(cp / 0x40);
    assert cp / 0x1000 == (cp / 0x40) / 0x40;
    assert cp / 0x4_0000 == (cp / 0x1000) / 0x40;
  }

  lemma Split64(x: nat)
    ensures x == (x / 0x40) * 0x40 + x % 0x40
    ensures x / 0x40 == (x / 0x1000) * 0x40 + (x / 0x40) % 0x40
    ensures x == (x / 0x1000) * 0x1000 + ((x / 0x40) % 0x40) * 0x40 + x % 0x40
  {
  }

  /** Decoding an encoding gives the original string back, so encodeURIComponent is injective. */
  lemma {:induction false} RoundTrip(s: Text)
    requires WellFormed(s)
    ensures EncodeURIComponent(s).Ok?
    ensures PercentDecode(EncodeURIComponent(s).value) == Some(s)
    decreases |s|
  {
    EncodeOkIffWellFormed(s);
    if |s| > 0 {
      if IsUnreserved(s[0]) {
        assert WellFormed(s[1..]);
        RoundTrip(s[1..]);
        UnreservedStep(s);
      } else {
        var n := CodePointAt(s, 0).codeUnitCount;
        if IsHighSurrogate(s[0]) {
          assert n == 2;
        } else {
          assert n == 1;
        }
        assert WellFormed(s[n..]);
        RoundTrip(s[n..]);
        var cp := CodePointAt(s, 0);
        var rest := EncodeURIComponent(s[n..]).value;
        EscapedStep(s, cp, rest);
        DecodeEscapes(cp.codePoint, rest, s[n..]);
        assert s == s[..n] + s[n..];
      }
    }
  }

  /** A leading unreserved unit is copied, and the decoder copies it back. */
  lemma UnreservedStep(s: Text)
    requires |s| > 0 && IsUnreserved(s[0]) && EncodeURIComponent(s[1..]).Ok?
    requires PercentDecode(EncodeURIComponent(s[1..]).value) == Some(s[1..])
    ensures EncodeURIComponent(s).Ok?
    ensures PercentDecode(EncodeURIComponent(s).value) == Some(s)
  {
    var e := EncodeURIComponent(s).value;
    var c := s[0] as int as char;
    var rest := EncodeURIComponent(s[1..]).value;
    assert e == [c] + rest;
    assert e[1..] == rest;
    assert CharUnits(c) == [s[0]];
    assert s == [s[0]] + s[1..];
  }

  /** A leading code point outside the unreserved set is escaped as the percent escapes of its UTF-8 octets. */
  lemma EscapedStep(s: Text, cp: CodePointRecord, rest: string)
    requires |s| > 0 && !IsUnreserved(s[0]) && cp == CodePointAt(s, 0) && !cp.isUnpairedSurrogate
    requires EncodeURIComponent(s[cp.codeUnitCount..]) == Ok(rest)
    ensures EncodeURIComponent(s) == Ok(PercentOctets(Utf8(cp.codePoint)) + rest)
  {
  }

  /** The escapes of a code point's UTF-8 octets in front of text that decodes to tail decode to the code point's units and then tail. */
  lemma DecodeEscapes(cp: int, rest: string, tail: Text)
    requires IsScalar(cp) && PercentDecode(rest) == Some(tail)
    ensures PercentDecode(PercentOctets(Utf8(cp)) + rest) == Some(EncodeCodePoint(cp) + tail)
  {
    var octets := Utf8(cp);
    var e := PercentOctets(octets) + rest;
    DecodeSequenceOfUtf8(cp, rest);
    assert e[0] == '%';
    assert e[3 * |octets|..] == rest;
  }

  /** encodeURIComponent is injective on the strings it accepts. */
  lemma EncodeInjective(s: Text, t: Text)
    requires EncodeURIComponent(s).Ok? && EncodeURIComponent(t).Ok?
    requires EncodeURIComponent(s) == EncodeURIComponent(t)
    ensures s == t
  {
    EncodeOkIffWellFormed(s);
    EncodeOkIffWellFormed(t);
    RoundTrip(s);
    RoundTrip(t);
  }
}
