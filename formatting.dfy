/**
 * The .NET text behaviour the bridge relies on: "F2" fixed-point formatting
 * of a value already rounded to hundredths (with '.' as decimal separator),
 * Encoding.ASCII in both directions, and ordinal String.Contains. Each
 * formatter comes with a parser or decoder that undoes it.
 */
module Formatting {
  import opened Wrappers

  /** One byte of an encoded datagram. */
  type byte = b: int | 0 <= b < 256

  predicate IsDigit(c: char) {
    '0' <= c <= '9'
  }

  predicate AllDigits(s: string) {
    forall i :: 0 <= i < |s| ==> IsDigit(s[i])
  }

  function DigitValue(c: char): (d: int)
    requires IsDigit(c)
    ensures 0 <= d < 10
  {
    c as int - '0' as int
  }

  function DigitChar(d: int): (c: char)
    requires 0 <= d < 10
    ensures IsDigit(c) && DigitValue(c) == d
  {
    ('0' as int + d) as char
  }

  /** The number that a string of decimal digits denotes, most significant first. */
  function DigitsValue(s: string): nat
    requires AllDigits(s)
  {
    if s == [] then 0 else DigitsValue(s[..|s| - 1]) * 10 + DigitValue(s[|s| - 1])
  }

  /** The decimal digits of n, most significant first: the inverse of DigitsValue. */
  function NatDigits(n: nat): (s: string)
    ensures |s| > 0 && AllDigits(s)
    ensures DigitsValue(s) == n
  {
    if n < 10 then
      [DigitChar(n)]
    else
      var s := NatDigits(n / 10) + [DigitChar(n % 10)];
      assert s[..|s| - 1] == NatDigits(n / 10);
      s
  }

  /** The length of the run of digits that starts s. */
  function DigitRun(s: string): (k: nat)
    ensures k <= |s|
    ensures forall i :: 0 <= i < k ==> IsDigit(s[i])
    ensures k < |s| ==> !IsDigit(s[k])
  {
    if s == [] || !IsDigit(s[0]) then 0 else 1 + DigitRun(s[1..])
  }

  lemma DigitRunOf(d: string, rest: string)
    requires AllDigits(d)
    requires rest == [] || !IsDigit(rest[0])
    ensures DigitRun(d + rest) == |d|
  {
    assert forall i :: 0 <= i < |d| ==> (d + rest)[i] == d[i];
    assert rest != [] ==> (d + rest)[|d|] == rest[0];
  }

  function Abs(h: int): nat {
    if h < 0 then -h else h
  }

  predicate IsNumeralChar(c: char) {
    IsDigit(c) || c == '-' || c == '.'
  }

  /**
   * The "F2" text of the value h / 100: a minus sign when h is negative,
   * the integer part without leading zeros, a point and exactly two
   * fraction digits. Only digits, '-' and '.' occur in it.
   */
  function FormatF2(h: int): (s: string)
    ensures |s| >= 4
    ensures forall i :: 0 <= i < |s| ==> IsNumeralChar(s[i])
  {
    (if h < 0 then "-" else "") + Magnitude(Abs(h))
  }

  /**
   * Reads an "F2" numeral at the start of s and returns its value in
   * hundredths together with the text after it.
   */
  function ParseF2(s: string): Option<(int, string)> {
    if |s| > 0 && s[0] == '-' then
      var (m, rest) :- ParseUnsignedF2(s[1..]);
      var value: int := m;
      Some((-value, rest))
    else
      ParseUnsignedF2(s)
  }

  /** Reads digits, a point and two fraction digits: a magnitude in hundredths. */
  function ParseUnsignedF2(t: string): Option<(nat, string)> {
    var k := DigitRun(t);
    if k == 0 || |t| < k + 3 || t[k] != '.' || !IsDigit(t[k + 1]) || !IsDigit(t[k + 2]) then
      None
    else
      Some((DigitsValue(t[..k]) * 100 + DigitValue(t[k + 1]) * 10 + DigitValue(t[k + 2]), t[k + 3..]))
  }

  /** The magnitude part of FormatF2. */
  function Magnitude(m: nat): string {
    NatDigits(m / 100) + "." + [DigitChar(m % 100 / 10), DigitChar(m % 10)]
  }

  lemma ParseMagnitude(m: nat, rest: string)
    ensures ParseUnsignedF2(Magnitude(m) + rest) == Some((m, rest))
  {
    var d := NatDigits(m / 100);
    var c1, c2 := DigitChar(m % 100 / 10), DigitChar(m % 10);
    var tail := "." + [c1, c2] + rest;
    var t := Magnitude(m) + rest;
    assert t == d + tail;
    DigitRunOf(d, tail);
    var k := |d|;
    assert t[k] == '.' && t[k + 1] == c1 && t[k + 2] == c2;
    assert t[..k] == d;
    assert t[k + 3..] == rest;
    DecimalSplit(m);
  }

  lemma DecimalSplit(m: nat)
    ensures (m / 100) * 100 + (m % 100 / 10) * 10 + m % 10 == m
  {
    var q, r := m / 100, m % 100;
    assert m == q * 100 + r;
    assert m == (q * 10) * 10 + r;
    LastDigit(m, q * 10, r);
    assert r == (r / 10) * 10 + r % 10;
  }

  /** The last decimal digit of a * 10 + r is that of r. */
  lemma LastDigit(m: nat, a: nat, r: nat)
    requires m == a * 10 + r
    ensures m % 10 == r % 10
  {
    var b := r / 10;
    assert r == b * 10 + r % 10;
    assert m == (a + b) * 10 + r % 10;
  }

  /** Parsing the F2 text of h, whatever follows it, gives back h and what follows. */
  lemma ParseFormatF2(h: int, rest: string)
    ensures ParseF2(FormatF2(h) + rest) == Some((h, rest))
  {
    var m := Abs(h);
    var t := Magnitude(m) + rest;
    ParseMagnitude(m, rest);
    assert t[0] == NatDigits(m / 100)[0];
    if h < 0 {
      assert FormatF2(h) + rest == "-" + t;
      assert ("-" + t)[1..] == t;
    } else {
      assert FormatF2(h) + rest == t;
    }
  }

  /** Reads the literal text p at the start of s and returns what follows it. */
  function Expect(p: string, s: string): Option<string> {
    if |p| <= |s| && s[..|p|] == p then Some(s[|p|..]) else None
  }

  lemma ExpectPrefix(p: string, rest: string)
    ensures Expect(p, p + rest) == Some(rest)
  {
    assert (p + rest)[..|p|] == p;
    assert (p + rest)[|p|..] == rest;
  }

  /** Reads the literal text p followed by an F2 numeral. */
  function Field(p: string, s: string): Option<(int, string)> {
    var t :- Expect(p, s);
    ParseF2(t)
  }

  lemma FieldRoundTrip(p: string, h: int, rest: string)
    ensures Field(p, p + FormatF2(h) + rest) == Some((h, rest))
  {
    assert p + FormatF2(h) + rest == p + (FormatF2(h) + rest);
    ExpectPrefix(p, FormatF2(h) + rest);
    ParseFormatF2(h, rest);
  }

  /** Encoding.ASCII.GetBytes of one char: code points above 127 become '?'. */
  function AsciiByte(c: char): byte {
    if c as int < 128 then c as int else '?' as int
  }

  /** Encoding.ASCII.GetString of one byte: bytes above 127 become '?'. */
  function AsciiChar(b: byte): char {
    if b < 128 then b as char else '?'
  }

  predicate IsAscii(s: string) {
    forall i :: 0 <= i < |s| ==> s[i] as int < 128
  }

  /** Encoding.ASCII.GetBytes: one byte per char. */
  function AsciiEncode(s: string): (bs: seq<byte>)
    ensures |bs| == |s|
  {
    seq(|s|, i requires 0 <= i < |s| => AsciiByte(s[i]))
  }

  /** Encoding.ASCII.GetString: one char per byte. */
  function AsciiDecode(bs: seq<byte>): (s: string)
    ensures |s| == |bs|
  {
    seq(|bs|, i requires 0 <= i < |bs| => AsciiChar(bs[i]))
  }

  /** Decoding the ASCII bytes of an ASCII string gives the string back. */
  lemma AsciiRoundTrip(s: string)
    requires IsAscii(s)
    ensures AsciiDecode(AsciiEncode(s)) == s
  {
    var r := AsciiDecode(AsciiEncode(s));
    forall i | 0 <= i < |s|
      ensures r[i] == s[i]
    {
      assert AsciiEncode(s)[i] == s[i] as int;
    }
  }

  /** Text that consists of F2 numerals and ASCII punctuation is ASCII. */
  lemma FormatF2IsAscii(h: int)
    ensures IsAscii(FormatF2(h))
  {
  }

  /** Whether t occurs in s starting at index i. */
  predicate OccursAt(s: string, t: string, i: int) {
    0 <= i <= |s| - |t| && s[i..i + |t|] == t
  }

  /** Ordinal String.Contains: t occurs somewhere in s (the empty string occurs everywhere). */
  function Contains(s: string, t: string): (b: bool)
    ensures b <==> exists i :: OccursAt(s, t, i)
    decreases |s|
  {
    if |s| < |t| then
      false
    else if s[..|t|] == t then
      assert OccursAt(s, t, 0);
      true
    else
      ShiftOccurrence(s, t);
      Contains(s[1..], t)
  }

  lemma ShiftOccurrence(s: string, t: string)
    requires |t| <= |s| && s[..|t|] != t
    ensures (exists i :: OccursAt(s, t, i)) <==> (exists i :: OccursAt(s[1..], t, i))
  {
    if i :| OccursAt(s, t, i) {
      assert i != 0;
      assert s[1..][i - 1..i - 1 + |t|] == s[i..i + |t|];
      assert OccursAt(s[1..], t, i - 1);
    }
    if i :| OccursAt(s[1..], t, i) {
      assert s[1..][i..i + |t|] == s[i + 1..i + 1 + |t|];
      assert OccursAt(s, t, i + 1);
    }
  }
}
