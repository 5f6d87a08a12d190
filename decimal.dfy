/**
 * Decimal text of integers, as Swift's string interpolation prints an `Int`, and the
 * reading of a run of digits back into a number.
 */
module Decimal {

  predicate IsDigit(c: char) {
    '0' <= c <= '9'
  }

  predicate AllDigits(s: string) {
    forall k :: 0 <= k < |s| ==> IsDigit(s[k])
  }

  function DigitChar(d: nat): (c: char)
    requires d < 10
    ensures IsDigit(c) && c as int - '0' as int == d
  {
    ('0' as int + d) as char
  }

  function DigitValue(c: char): (d: nat)
    requires IsDigit(c)
    ensures d < 10
  {
    c as int - '0' as int
  }

  /** The decimal digits of `n`, most significant first, without leading zeros. */
  function NatToDecimal(n: nat): (r: string)
    ensures |r| > 0 && AllDigits(r)
    ensures |r| > 1 ==> r[0] != '0'
  {
    if n < 10 then [DigitChar(n)] else NatToDecimal(n / 10) + [DigitChar(n % 10)]
  }

  /** An integer printed in decimal, with a leading `-` when it is negative. */
  function IntToDecimal(i: int): (r: string)
    ensures |r| > 0
    ensures r[0] == '-' <==> i < 0
    ensures i < 0 ==> |r| > 1 && AllDigits(r[1..]) && r[1] != '0'
    ensures i >= 0 ==> AllDigits(r) && (|r| > 1 ==> r[0] != '0')
    ensures i < 0 ==> DigitsValue(r[1..]) == -i
    ensures i >= 0 ==> DigitsValue(r) == i
  {
    if i < 0 then
      var m := NatToDecimal(-i);
      NatToDecimalRoundTrip(-i);
      assert ("-" + m)[1..] == m;
      "-" + m
    else
      NatToDecimalRoundTrip(i);
      NatToDecimal(i)
  }

  /** The number a string of digits denotes. */
  function DigitsValue(s: string): nat
    requires AllDigits(s)
  {
    if s == [] then 0 else DigitsValue(s[..|s| - 1]) * 10 + DigitValue(s[|s| - 1])
  }

  /** Reading the printed digits gives the number back. */
  lemma {:induction false} NatToDecimalRoundTrip(n: nat)
    ensures DigitsValue(NatToDecimal(n)) == n
  {
    var r := NatToDecimal(n);
    if n >= 10 {
      NatToDecimalRoundTrip(n / 10);
      assert r[..|r| - 1] == NatToDecimal(n / 10);
    }
  }

  /** Different numbers print differently. */
  lemma NatToDecimalInjective(m: nat, n: nat)
    ensures NatToDecimal(m) == NatToDecimal(n) <==> m == n
  {
    NatToDecimalRoundTrip(m);
    NatToDecimalRoundTrip(n);
  }

  /** The length of the run of digits in `s` that starts at position `i`. */
  function DigitRun(s: string, i: nat): (n: nat)
    requires i <= |s|
    ensures i + n <= |s| && AllDigits(s[i..i + n])
    ensures i + n < |s| ==> !IsDigit(s[i + n])
    decreases |s| - i
  {
    if i < |s| && IsDigit(s[i]) then
      var n := DigitRun(s, i + 1);
      assert s[i..i + 1 + n] == [s[i]] + s[i + 1..i + 1 + n];
      1 + n
    else 0
  }

  /** A run of digits followed by a non-digit (or nothing) is read in full. */
  lemma {:induction false} DigitRunOfDigits(d: string, t: string, i: nat)
    requires AllDigits(d) && i <= |d|
    requires t == [] || !IsDigit(t[0])
    ensures DigitRun(d + t, i) == |d| - i
    decreases |d| - i
  {
    if i < |d| {
      DigitRunOfDigits(d, t, i + 1);
    } else if t != [] {
      assert (d + t)[i] == t[0];
    }
  }
}
