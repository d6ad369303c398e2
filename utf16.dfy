/**
 * JavaScript strings as the language stores them: sequences of 16-bit
 * UTF-16 code units, which may contain unpaired surrogates.  Also the
 * white-space rule of String.prototype.trim (the ECMA-262 section
 * "String.prototype.trim").
 */
module Utf16 {

  newtype u16 = x: int | 0 <= x < 0x1_0000

  /** A JavaScript string value. */
  type Text = seq<u16>

  predicate IsHighSurrogate(u: u16) { 0xD800 <= u <= 0xDBFF }
  predicate IsLowSurrogate(u: u16) { 0xDC00 <= u <= 0xDFFF }

  /** A Unicode scalar value: a code point that is not a surrogate. */
  predicate IsScalar(cp: int) { 0 <= cp <= 0x10_FFFF && !(0xD800 <= cp <= 0xDFFF) }

  /** UTF16EncodeCodePoint (the ECMA-262 section "UTF16EncodeCodePoint"). */
  function EncodeCodePoint(cp: int): (r: Text)
    requires IsScalar(cp)
    ensures 1 <= |r| <= 2
    ensures |r| == 1 <==> cp < 0x1_0000
    ensures |r| == 1 ==> r[0] as int == cp && !IsHighSurrogate(r[0]) && !IsLowSurrogate(r[0])
    ensures |r| == 2 ==> IsHighSurrogate(r[0]) && IsLowSurrogate(r[1])
    ensures |r| == 2 ==> cp == (r[0] as int - 0xD800) * 0x400 + (r[1] as int - 0xDC00) + 0x1_0000
  {
    if cp < 0x1_0000 then [cp as u16]
    else [(0xD800 + (cp - 0x1_0000) / 0x400) as u16, (0xDC00 + (cp - 0x1_0000) % 0x400) as u16]
  }

  /** The code units of a character of a string literal in the program text. */
  function CharUnits(c: char): Text
  {
    EncodeCodePoint(c as int)
  }

  /**
   * The string t followed by the code units of s, built one character at a
   * time.  Naming t in the termination measure keeps the verifier from
   * unfolding a call all the way down a literal s when t is not a literal.
   */
  function AppendUnits(t: Text, s: string): (r: Text)
    ensures |r| >= |t| + |s|
    decreases |s|, |t|
  {
    if |s| == 0 then t else AppendUnits(t + CharUnits(s[0]), s[1..])
  }

  /** The JavaScript string a string literal denotes: its UTF-16 encoding, character by character. */
  function Of(s: string): (r: Text)
    ensures |r| >= |s|
  {
    AppendUnits([], s)
  }

  lemma {:induction false} AppendUnitsIsConcat(t: Text, s: string)
    ensures AppendUnits(t, s) == t + Of(s)
    decreases |s|, |t|
  {
    if |s| > 0 {
      var head := CharUnits(s[0]);
      AppendUnitsIsConcat(t + head, s[1..]);
      AppendUnitsIsConcat([] + head, s[1..]);
      assert [] + head == head;
      assert t + head + Of(s[1..]) == t + (head + Of(s[1..]));
    } else {
      assert t + [] == t;
    }
  }

  /** A literal denotes the units of its first character followed by what the rest denotes. */
  lemma OfCons(s: string)
    requires |s| > 0
    ensures Of(s) == CharUnits(s[0]) + Of(s[1..])
  {
    AppendUnitsIsConcat([] + CharUnits(s[0]), s[1..]);
    assert [] + CharUnits(s[0]) == CharUnits(s[0]);
  }

  /**
   * A string without unpaired surrogates: every high surrogate is directly
   * followed by a low one, and every low one directly follows a high one.
   */
  predicate WellFormed(s: Text)
    decreases |s|
  {
    if |s| == 0 then true
    else if IsHighSurrogate(s[0]) then |s| >= 2 && IsLowSurrogate(s[1]) && WellFormed(s[2..])
    else !IsLowSurrogate(s[0]) && WellFormed(s[1..])
  }

  /** Appending a well-formed string that does not open with a low surrogate keeps or breaks well-formedness exactly as the prefix does. */
  lemma {:induction false} WellFormedAppend(a: Text, b: Text)
    requires b == [] || !IsLowSurrogate(b[0])
    ensures WellFormed(a + b) <==> WellFormed(a) && WellFormed(b)
    decreases |a|
  {
    if |a| == 0 {
      assert a + b == b;
    } else if IsHighSurrogate(a[0]) {
      if |a| >= 2 {
        assert (a + b)[2..] == a[2..] + b;
        WellFormedAppend(a[2..], b);
      }
    } else {
      assert (a + b)[1..] == a[1..] + b;
      WellFormedAppend(a[1..], b);
    }
  }

  /** A string literal of the program denotes a well-formed string that does not open with a low surrogate. */
  lemma {:induction false} OfWellFormed(s: string)
    ensures WellFormed(Of(s))
    ensures Of(s) == [] || !IsLowSurrogate(Of(s)[0])
  {
    if |s| > 0 {
      var head := CharUnits(s[0]);
      OfCons(s);
      OfWellFormed(s[1..]);
      WellFormedAppend(head, Of(s[1..]));
      if |head| == 2 {
        assert head[2..] == [];
      } else {
        assert head[1..] == [];
      }
    }
  }

  // ---------------------------------------------------------------------
  // String.prototype.trim

  /** WhiteSpace and LineTerminator code points (the ECMA-262 sections "White Space" and "Line Terminators"). */
  predicate IsTrimmable(u: u16)
  {
    || u == 0x09 || u == 0x0A || u == 0x0B || u == 0x0C || u == 0x0D
    || u == 0x20 || u == 0xA0 || u == 0x1680 || (0x2000 <= u <= 0x200A)
    || u == 0x2028 || u == 0x2029 || u == 0x202F || u == 0x205F || u == 0x3000
    || u == 0xFEFF
  }

  /** The string without its leading white space. */
  function TrimStart(s: Text): (r: Text)
    ensures |r| <= |s| && r == s[|s| - |r|..]
    ensures forall k :: 0 <= k < |s| - |r| ==> IsTrimmable(s[k])
    ensures r == [] || !IsTrimmable(r[0])
    decreases |s|
  {
    if |s| > 0 && IsTrimmable(s[0]) then TrimStart(s[1..]) else s
  }

  /** The string without its trailing white space. */
  function TrimEnd(s: Text): (r: Text)
    ensures |r| <= |s| && r == s[..|r|]
    ensures forall k :: |r| <= k < |s| ==> IsTrimmable(s[k])
    ensures r == [] || !IsTrimmable(r[|r| - 1])
    decreases |s|
  {
    if |s| > 0 && IsTrimmable(s[|s| - 1]) then TrimEnd(s[..|s| - 1]) else s
  }

  /** String.prototype.trim: both ends stripped of white space. */
  function Trim(s: Text): (r: Text)
  {
    TrimEnd(TrimStart(s))
  }

  /** The trimmed string is empty exactly when every code unit is white space. */
  lemma TrimEmptyIff(s: Text)
    ensures Trim(s) == [] <==> forall k :: 0 <= k < |s| ==> IsTrimmable(s[k])
  {
  }

  /** What trim keeps is a slice that neither starts nor ends with white space, and everything cut off is white space. */
  lemma TrimSlice(s: Text) returns (i: nat, j: nat)
    ensures i <= j <= |s| && Trim(s) == s[i..j]
    ensures forall k :: 0 <= k < i ==> IsTrimmable(s[k])
    ensures forall k :: j <= k < |s| ==> IsTrimmable(s[k])
    ensures i < j ==> !IsTrimmable(s[i]) && !IsTrimmable(s[j - 1])
  {
    var t := TrimStart(s);
    var r := TrimEnd(t);
    i := |s| - |t|;
    j := i + |r|;
    assert r == t[..|r|];
    forall k | j <= k < |s| ensures IsTrimmable(s[k]) {
      assert s[k] == t[k - i];
    }
  }
}
