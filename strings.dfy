/**
 * String helpers shared by the model: decimal rendering of integers (JavaScript
 * `toString()` on an integer or a `bigint`), `padStart`, `parseInt` on a run of
 * ASCII digits, `String.prototype.trim`, and the case-insensitive substring test
 * the database uses for `contains` filters.
 */
module Strings {

  // ---------------------------------------------------------------------------
  // Decimal digits
  // ---------------------------------------------------------------------------

  /** An ASCII decimal digit, what the regular-expression class `\d` matches. */
  predicate IsDigit(c: char) {
    '0' <= c <= '9'
  }

  predicate AllDigits(s: string) {
    forall i :: 0 <= i < |s| ==> IsDigit(s[i])
  }

  function DigitChar(d: nat): (c: char)
    requires d < 10
    ensures IsDigit(c)
  {
    ('0' as int + d) as char
  }

  function DigitValue(c: char): (d: nat)
    requires IsDigit(c)
    ensures d < 10 && DigitChar(d) == c
  {
    (c as int - '0' as int) as nat
  }

  function Pow10(k: nat): (p: nat)
    ensures p >= 1
  {
    if k == 0 then 1 else 10 * Pow10(k - 1)
  }

  /** The shortest decimal rendering of `n`, as `n.toString()` gives it. */
  function NatToString(n: nat): (s: string)
    ensures |s| >= 1 && AllDigits(s)
    ensures s[0] == '0' ==> n == 0
    decreases n
  {
    if n < 10 then [DigitChar(n)] else NatToString(n / 10) + [DigitChar(n % 10)]
  }

  /** The value of a run of decimal digits, as `parseInt(s, 10)` reads it. */
  function DigitsToNat(s: string): nat
    requires AllDigits(s)
  {
    if s == [] then 0 else 10 * DigitsToNat(s[..|s| - 1]) + DigitValue(s[|s| - 1])
  }

  lemma {:induction false} NatToStringRoundTrip(n: nat)
    ensures DigitsToNat(NatToString(n)) == n
    decreases n
  {
    if n >= 10 {
      var s := NatToString(n);
      assert s[..|s| - 1] == NatToString(n / 10);
      NatToStringRoundTrip(n / 10);
    }
  }

  /** Distinct numbers render as distinct strings. */
  lemma NatToStringInjective(m: nat, n: nat)
    requires NatToString(m) == NatToString(n)
    ensures m == n
  {
    NatToStringRoundTrip(m);
    NatToStringRoundTrip(n);
  }

  /** The rendering of `n` has at most `k` digits exactly when `n < 10^k`. */
  lemma {:induction false} NatToStringLength(n: nat, k: nat)
    requires k >= 1
    ensures |NatToString(n)| <= k <==> n < Pow10(k)
    decreases n
  {
    if n >= 10 {
      if k == 1 {
        assert |NatToString(n)| >= 2;
      } else {
        NatToStringLength(n / 10, k - 1);
      }
    }
  }

  lemma {:induction false} DigitsToNatBound(s: string)
    requires AllDigits(s)
    ensures DigitsToNat(s) < Pow10(|s|)
    decreases |s|
  {
    if s != [] {
      DigitsToNatBound(s[..|s| - 1]);
    }
  }

  /** A run of digits that does not start with '0' has its full magnitude. */
  lemma {:induction false} DigitsLowerBound(s: string)
    requires AllDigits(s) && |s| >= 1 && s[0] != '0'
    ensures DigitsToNat(s) >= Pow10(|s| - 1)
    decreases |s|
  {
    if |s| > 1 {
      DigitsLowerBound(s[..|s| - 1]);
    }
  }

  /** Rendering the value of a digit run without a leading zero gives the run back. */
  lemma {:induction false} DigitsRoundTrip(s: string)
    requires AllDigits(s) && |s| >= 1 && s[0] != '0'
    ensures NatToString(DigitsToNat(s)) == s
    decreases |s|
  {
    var n := DigitsToNat(s);
    if |s| == 1 {
      assert s[..|s| - 1] == [];
      assert DigitsToNat(s[..|s| - 1]) == 0;
    } else {
      var front := s[..|s| - 1];
      DigitsLowerBound(front);
      DigitsRoundTrip(front);
      var d := DigitValue(s[|s| - 1]);
      assert n == 10 * DigitsToNat(front) + d && d < 10;
      assert DigitsToNat(front) >= 1;
      LastDigit(DigitsToNat(front), d);
      assert NatToString(n) == NatToString(DigitsToNat(front)) + [DigitChar(d)];
      assert s == front + [s[|s| - 1]];
    }
  }

  lemma LastDigit(a: nat, d: nat)
    requires d < 10
    ensures (10 * a + d) / 10 == a && (10 * a + d) % 10 == d
  {
  }

  // ---------------------------------------------------------------------------
  // Padding
  // ---------------------------------------------------------------------------

  function Repeat(c: char, k: nat): (s: string)
    ensures |s| == k && forall i :: 0 <= i < k ==> s[i] == c
  {
    if k == 0 then [] else [c] + Repeat(c, k - 1)
  }

  /** `s.padStart(width, c)` for a one-character pad string. */
  function PadStart(s: string, width: nat, c: char): (r: string)
    ensures |r| == if |s| >= width then |s| else width
    ensures r[|r| - |s|..] == s
    ensures forall i :: 0 <= i < |r| - |s| ==> r[i] == c
  {
    if |s| >= width then s else Repeat(c, width - |s|) + s
  }

  /** Leading zeros do not change the value `parseInt` reads. */
  lemma {:induction false} LeadingZeros(k: nat, s: string)
    requires AllDigits(s)
    ensures AllDigits(Repeat('0', k) + s)
    ensures DigitsToNat(Repeat('0', k) + s) == DigitsToNat(s)
    decreases |s|
  {
    var z := Repeat('0', k);
    if s == [] {
      assert z + s == z;
      AllZeros(k);
    } else {
      assert (z + s)[..|z + s| - 1] == z + s[..|s| - 1];
      LeadingZeros(k, s[..|s| - 1]);
    }
  }

  lemma {:induction false} AllZeros(k: nat)
    ensures AllDigits(Repeat('0', k)) && DigitsToNat(Repeat('0', k)) == 0
    decreases k
  {
    if k > 0 {
      var z := Repeat('0', k);
      assert z[..k - 1] == Repeat('0', k - 1);
      AllZeros(k - 1);
    }
  }

  /**
   * A run of `w` digits, leading zeros included, is what zero-padding the
   * rendering of its value to width `w` gives.
   */
  lemma PaddedDigitsRoundTrip(s: string, w: nat)
    requires AllDigits(s) && |s| == w && w >= 1
    ensures PadStart(NatToString(DigitsToNat(s)), w, '0') == s
  {
    var k := ZeroRun(s);
    var rest := s[k..];
    assert s == Repeat('0', k) + rest;
    LeadingZeros(k, rest);
    if rest == [] {
      ZerosPadded(w);
    } else {
      DigitsRoundTrip(rest);
    }
  }

  /** The number of leading `'0'` characters. */
  function ZeroRun(s: string): (k: nat)
    ensures k <= |s| && (k < |s| ==> s[k] != '0')
    ensures forall i :: 0 <= i < k ==> s[i] == '0'
  {
    if s != [] && s[0] == '0' then 1 + ZeroRun(s[1..]) else 0
  }

  /** A field of zeros reads as 0 and renders back as the same field. */
  lemma ZerosPadded(w: nat)
    requires w >= 1
    ensures PadStart(NatToString(DigitsToNat(Repeat('0', w))), w, '0') == Repeat('0', w)
  {
    AllZeros(w);
    var zero := NatToString(0);
    assert zero == "0";
    var padded := Repeat('0', w - 1) + zero;
    assert |padded| == w;
    assert forall i :: 0 <= i < w ==> padded[i] == '0';
    assert padded == Repeat('0', w);
  }

  // ---------------------------------------------------------------------------
  // Signed integers (bigint `toString()`)
  // ---------------------------------------------------------------------------

  /** `x.toString()` for an arbitrary-precision integer. */
  function IntToString(x: int): (s: string)
    ensures |s| >= 1
    ensures (s[0] == '-') <==> x < 0
  {
    if x < 0 then "-" + NatToString(-x) else NatToString(x)
  }

  /** Reads back an optionally signed run of digits; `NotANumber` for anything else. */
  function ParseInt(s: string): (r: IntParse)
  {
    if |s| >= 1 && s[0] == '-' then Negated(ParseDigits(s[1..])) else ParseDigits(s)
  }

  /** A non-empty run of digits and nothing else. */
  function ParseDigits(d: string): (r: IntParse)
  {
    if |d| >= 1 && AllDigits(d) then Parsed(DigitsToNat(d)) else NotANumber
  }

  function Negated(p: IntParse): (r: IntParse) {
    if p.Parsed? then Parsed(-p.value) else NotANumber
  }

  datatype IntParse = NotANumber | Parsed(value: int)

  /** The decimal column keeps every digit: reading it back gives the same integer. */
  lemma IntToStringRoundTrip(x: int)
    ensures ParseInt(IntToString(x)) == Parsed(x)
  {
    if x < 0 {
      NegativeRoundTrip(x);
    } else {
      NonNegativeRoundTrip(x);
    }
  }

  lemma NegativeRoundTrip(x: int)
    requires x < 0
    ensures ParseInt(IntToString(x)) == Parsed(x)
  {
    var digits := NatToString(-x);
    assert IntToString(x) == "-" + digits;
    SignedDigits(digits);
    NatToStringRoundTrip(-x);
  }

  /** A minus sign followed by digits reads as the negated value of the digits. */
  lemma SignedDigits(digits: string)
    requires |digits| >= 1 && AllDigits(digits)
    ensures ParseInt("-" + digits) == Parsed(-(DigitsToNat(digits) as int))
  {
    var s := "-" + digits;
    assert s[1..] == digits;
  }

  lemma NonNegativeRoundTrip(n: nat)
    ensures ParseInt(IntToString(n)) == Parsed(n)
  {
    var s := NatToString(n);
    assert IntToString(n) == s;
    assert s[0] != '-';
    NatToStringRoundTrip(n);
  }

  // ---------------------------------------------------------------------------
  // Trimming (String.prototype.trim)
  // ---------------------------------------------------------------------------

  /** The characters ECMAScript counts as white space or line terminators. */
  predicate IsJsWhitespace(c: char) {
    c == '\t' || c == '\n' || c == '\U{B}' || c == '\U{C}' || c == '\r' || c == ' '
    || c == '\U{A0}' || c == '\U{1680}' || ('\U{2000}' <= c <= '\U{200A}')
    || c == '\U{2028}' || c == '\U{2029}' || c == '\U{202F}' || c == '\U{205F}'
    || c == '\U{3000}' || c == '\U{FEFF}'
  }

  function TrimStart(s: string): (r: string)
    ensures |r| <= |s| && r == s[|s| - |r|..]
    ensures r == [] || !IsJsWhitespace(r[0])
    ensures forall i :: 0 <= i < |s| - |r| ==> IsJsWhitespace(s[i])
  {
    if s != [] && IsJsWhitespace(s[0]) then TrimStart(s[1..]) else s
  }

  function TrimEnd(s: string): (r: string)
    ensures |r| <= |s| && r == s[..|r|]
    ensures r == [] || !IsJsWhitespace(r[|r| - 1])
    ensures forall i :: |r| <= i < |s| ==> IsJsWhitespace(s[i])
  {
    if s != [] && IsJsWhitespace(s[|s| - 1]) then TrimEnd(s[..|s| - 1]) else s
  }

  function Trim(s: string): string {
    TrimEnd(TrimStart(s))
  }

  /** `s.trim()` is empty exactly when every character of `s` is white space. */
  lemma TrimEmpty(s: string)
    ensures Trim(s) == [] <==> forall i :: 0 <= i < |s| ==> IsJsWhitespace(s[i])
  {
    var t := TrimStart(s);
    assert t != [] ==> t[0] == s[|s| - |t|];
  }

  // ---------------------------------------------------------------------------
  // Case-insensitive substring search (`contains` with mode 'insensitive')
  // ---------------------------------------------------------------------------

  /** Lower-cases the ASCII capitals A-Z; every other character is left as it is. */
  function LowerChar(c: char): char {
    if 'A' <= c <= 'Z' then (c as int + 32) as char else c
  }

  function Lower(s: string): (r: string)
    ensures |r| == |s| && forall i :: 0 <= i < |s| ==> r[i] == LowerChar(s[i])
  {
    if s == [] then [] else [LowerChar(s[0])] + Lower(s[1..])
  }

  /** `needle` occurs in `hay` starting at position `i`. */
  predicate OccursAt(needle: string, hay: string, i: int) {
    0 <= i <= |hay| - |needle| && hay[i..i + |needle|] == needle
  }

  predicate IsSubstring(needle: string, hay: string) {
    exists i | 0 <= i <= |hay| :: OccursAt(needle, hay, i)
  }

  predicate ContainsInsensitive(hay: string, needle: string) {
    IsSubstring(Lower(needle), Lower(hay))
  }
}
