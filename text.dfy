/**
 * Decimal rendering of non-negative integers, as JavaScript template
 * literals (`${n}`) and Number.prototype.toFixed(1) produce it, together
 * with the parsers that invert them.
 */
module Text {
  import opened Wrappers

  predicate IsDigit(c: char) { '0' <= c <= '9' }

  predicate AllDigits(s: string) { forall i :: 0 <= i < |s| ==> IsDigit(s[i]) }

  function DigitChar(d: nat): (c: char)
    requires d < 10
    ensures IsDigit(c) && DigitValue(c) == d
  {
    ('0' as int + d) as char
  }

  function DigitValue(c: char): nat
    requires IsDigit(c)
  {
    c as int - '0' as int
  }

  /** `${n}` for a non-negative integer: decimal digits, no leading zero. */
  function NatToString(n: nat): (s: string)
    ensures 1 <= |s| && AllDigits(s)
    ensures |s| > 1 ==> s[0] != '0'
    ensures n > 0 ==> s[0] != '0'
    decreases n
  {
    if n < 10 then [DigitChar(n)] else NatToString(n / 10) + [DigitChar(n % 10)]
  }

  /** The decimal value of a string of digits (the empty string reads as 0). */
  function ParseNat(s: string): nat
    requires AllDigits(s)
  {
    if s == [] then 0 else ParseNat(s[..|s| - 1]) * 10 + DigitValue(s[|s| - 1])
  }

  lemma {:induction false} ParseNatToString(n: nat)
    ensures ParseNat(NatToString(n)) == n
    decreases n
  {
    var s := NatToString(n);
    if n >= 10 {
      assert s[..|s| - 1] == NatToString(n / 10);
      ParseNatToString(n / 10);
    }
  }

  lemma {:induction false} ParseNatLeading(d: string)
    requires 1 <= |d| && AllDigits(d)
    ensures ParseNat(d) >= DigitValue(d[0])
    decreases |d|
  {
    if |d| > 1 {
      ParseNatLeading(d[..|d| - 1]);
    }
  }

  /** A canonical digit string (no leading zero) is what NatToString gives for its value. */
  lemma {:induction false} NatToStringParse(d: string)
    requires 1 <= |d| && AllDigits(d)
    requires |d| > 1 ==> d[0] != '0'
    ensures NatToString(ParseNat(d)) == d
    decreases |d|
  {
    if |d| > 1 {
      var front := d[..|d| - 1];
      ParseNatLeading(front);
      NatToStringParse(front);
      assert d == front + [d[|d| - 1]];
    }
  }

  lemma NatToStringInjective(a: nat, b: nat)
    ensures NatToString(a) == NatToString(b) ==> a == b
  {
    ParseNatToString(a);
    ParseNatToString(b);
  }

  /** The length of the trailing run of digits of s. */
  function TrailingDigits(s: string): (n: nat)
    ensures n <= |s|
    ensures AllDigits(s[|s| - n..])
  {
    if s != [] && IsDigit(s[|s| - 1]) then
      var n := 1 + TrailingDigits(s[..|s| - 1]);
      assert s[|s| - n..] == s[..|s| - 1][|s| - n..] + [s[|s| - 1]];
      n
    else 0
  }

  lemma {:induction false} TrailingDigitsOfConcat(x: string, d: string)
    requires AllDigits(d)
    requires |x| > 0 && !IsDigit(x[|x| - 1])
    ensures TrailingDigits(x + d) == |d|
    decreases |d|
  {
    if d == [] {
      assert x + d == x;
    } else {
      assert (x + d)[..|x + d| - 1] == x + d[..|d| - 1];
      TrailingDigitsOfConcat(x, d[..|d| - 1]);
    }
  }

  /** `${prefix} ${n}`: the prefix, one space, and the decimal digits of n. */
  function Numbered(prefix: string, n: nat): (s: string)
    ensures |s| > |prefix| + 1 && s[..|prefix|] == prefix && s[|prefix|] == ' '
    ensures s[|prefix| + 1..] == NatToString(n)
  {
    prefix + " " + NatToString(n)
  }

  /** Splits "prefix n" at the space before its trailing number. */
  function SplitNumbered(s: string): (r: Option<(string, nat)>)
    ensures r.Some? ==> Numbered(r.value.0, r.value.1) == s
  {
    var k := TrailingDigits(s);
    if 1 <= k < |s| && s[|s| - k - 1] == ' ' && (k == 1 || s[|s| - k] != '0') then
      var prefix, digits := s[..|s| - k - 1], s[|s| - k..];
      NatToStringParse(digits);
      Some((prefix, ParseNat(digits)))
    else None
  }

  /** Every numbered prefix splits back into its prefix and number. */
  lemma SplitNumberedRoundTrip(prefix: string, n: nat)
    ensures SplitNumbered(Numbered(prefix, n)) == Some((prefix, n))
  {
    var s := Numbered(prefix, n);
    var d := NatToString(n);
    assert s == (prefix + " ") + d;
    TrailingDigitsOfConcat(prefix + " ", d);
    assert s[..|s| - |d| - 1] == prefix;
    assert s[|s| - |d|..] == d;
    ParseNatToString(n);
  }

  /** Number.prototype.toFixed(1) of a distance held as whole tenths. */
  function FormatTenths(t: nat): (s: string)
    ensures |s| >= 3 && s[|s| - 2] == '.'
    ensures AllDigits(s[..|s| - 2]) && IsDigit(s[|s| - 1])
  {
    NatToString(t / 10) + "." + [DigitChar(t % 10)]
  }

  /** parseFloat restricted to the strings toFixed(1) produces, in tenths. */
  function ParseTenths(s: string): (r: Option<nat>)
  {
    if |s| >= 3 && s[|s| - 2] == '.' && AllDigits(s[..|s| - 2]) && IsDigit(s[|s| - 1])
    then Some(ParseNat(s[..|s| - 2]) * 10 + DigitValue(s[|s| - 1]))
    else None
  }

  /** Formatting a distance and parsing it back gives the same number of tenths. */
  lemma {:induction false} ParseFormatTenths(t: nat)
    ensures ParseTenths(FormatTenths(t)) == Some(t)
  {
    var s := FormatTenths(t);
    assert s[..|s| - 2] == NatToString(t / 10);
    ParseNatToString(t / 10);
  }

  function UpperChar(c: char): (u: char)
  {
    if 'a' <= c <= 'z' then (c as int - 'a' as int + 'A' as int) as char else c
  }

  /** String.prototype.toUpperCase on the ASCII letters the type keys use. */
  function ToUpper(s: string): (u: string)
    ensures |u| == |s|
    ensures forall i :: 0 <= i < |s| ==> u[i] == UpperChar(s[i])
    ensures forall i :: 0 <= i < |u| ==> !('a' <= u[i] <= 'z')
  {
    if s == [] then [] else [UpperChar(s[0])] + ToUpper(s[1..])
  }
}
