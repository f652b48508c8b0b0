/**
 * Go's strconv.Atoi on a 64-bit platform, and its inverse strconv.Itoa.
 *
 * Atoi accepts an optional '+' or '-', then one or more ASCII digits, and
 * succeeds only when the value fits Go's 64-bit `int`. Leading zeros are
 * allowed, underscores and base prefixes are not. Out-of-range digit
 * strings fail just like malformed ones.
 */
module Strconv {
  import opened Wrappers

  const MaxInt: int := 0x7fff_ffff_ffff_ffff
  const MinInt: int := -0x8000_0000_0000_0000

  /** Go's `int` on a 64-bit platform. */
  type GoInt = x: int | MinInt <= x <= MaxInt

  predicate IsDigit(c: char) {
    '0' <= c <= '9'
  }

  /** Every character is an ASCII digit (the empty string included). */
  predicate AllDigits(s: string) {
    forall i :: 0 <= i < |s| ==> IsDigit(s[i])
  }

  /** One or more ASCII digits. */
  predicate IsDigits(s: string) {
    |s| > 0 && AllDigits(s)
  }

  function DigitValue(c: char): (d: nat)
    requires IsDigit(c)
    ensures d < 10
  {
    (c as int) - ('0' as int)
  }

  function DigitChar(d: nat): (c: char)
    requires d < 10
    ensures IsDigit(c) && DigitValue(c) == d
  {
    (('0' as int) + d) as char
  }

  /** The value of a string of decimal digits, read most significant digit first. */
  function DecimalValue(s: string): nat
    requires AllDigits(s)
  {
    if |s| == 0 then 0 else 10 * DecimalValue(s[..|s| - 1]) + DigitValue(s[|s| - 1])
  }

  /** True when the string starts with a sign character. */
  predicate HasSign(s: string) {
    |s| > 0 && (s[0] == '+' || s[0] == '-')
  }

  /** The string with one leading sign character removed, if it has one. */
  function Unsigned(s: string): (u: string)
    ensures HasSign(s) ==> s == [s[0]] + u
    ensures !HasSign(s) ==> u == s
  {
    if HasSign(s) then s[1..] else s
  }

  /** The value the digits denote, before the range check. */
  function SignedValue(s: string): int
    requires IsDigits(Unsigned(s))
  {
    if |s| > 0 && s[0] == '-' then -(DecimalValue(Unsigned(s)) as int) else DecimalValue(Unsigned(s))
  }

  predicate InRange(v: int) {
    MinInt <= v <= MaxInt
  }

  /** strconv.Atoi: Some(value) when `s` parses as a Go `int`, None on any syntax or range error. */
  function Atoi(s: string): (r: Option<GoInt>)
    ensures r.Some? ==> IsDigits(Unsigned(s))
  {
    var digits := Unsigned(s);
    if !IsDigits(digits) then None
    else
      var v := SignedValue(s);
      if InRange(v) then Some(v) else None
  }

  /** The canonical decimal digits of a natural number: no leading zero except for 0 itself. */
  function NatToDigits(n: nat): (s: string)
    ensures IsDigits(s)
    ensures s[0] == '0' ==> n == 0
    decreases n
  {
    if n < 10 then [DigitChar(n)] else NatToDigits(n / 10) + [DigitChar(n % 10)]
  }

  /** strconv.Itoa: '-' followed by the magnitude's digits for negative numbers, the digits otherwise. */
  function Itoa(n: int): string {
    if n < 0 then "-" + NatToDigits(-n) else NatToDigits(n)
  }

  lemma {:induction false} DecimalValueOfDigits(n: nat)
    ensures DecimalValue(NatToDigits(n)) == n
    decreases n
  {
    if n >= 10 {
      var s := NatToDigits(n);
      assert s[..|s| - 1] == NatToDigits(n / 10);
      DecimalValueOfDigits(n / 10);
    }
  }

  /** Formatting and then parsing any Go `int` gives the same number back. */
  lemma AtoiItoa(n: GoInt)
    ensures Atoi(Itoa(n)) == Some(n)
  {
    if n < 0 {
      DecimalValueOfDigits(-(n as int));
      assert Unsigned(Itoa(n)) == NatToDigits(-(n as int));
    } else {
      DecimalValueOfDigits(n);
    }
  }

  /** A leading zero digit does not change a digit string's value. */
  lemma {:induction false} DecimalValueLeadingZero(d: string)
    requires AllDigits(d)
    ensures AllDigits("0" + d) && DecimalValue("0" + d) == DecimalValue(d)
    decreases |d|
  {
    if |d| > 0 {
      var z := "0" + d;
      assert z[..|z| - 1] == "0" + d[..|d| - 1];
      assert z[|z| - 1] == d[|d| - 1];
      DecimalValueLeadingZero(d[..|d| - 1]);
    }
  }

  /** Go accepts leading zeros: "007" parses as 7. */
  lemma AtoiLeadingZero(d: string)
    requires IsDigits(d)
    ensures Atoi("0" + d) == Atoi(d)
  {
    DecimalValueLeadingZero(d);
  }

  /**
   * Every digit string, alone or after a '+', parses exactly when its value
   * fits, and then to that value: an out-of-range digit string of any length
   * is "not an integer".
   */
  lemma AtoiOfDigits(d: string)
    requires IsDigits(d)
    ensures Atoi(d) == if DecimalValue(d) <= MaxInt then Some(DecimalValue(d)) else None
    ensures Atoi("+" + d) == Atoi(d)
  {
    assert Unsigned(d) == d;
    assert Unsigned("+" + d) == d;
  }

  /** After a '-', a digit string parses exactly when its negation fits, and then to the negation. */
  lemma AtoiOfNegatedDigits(d: string)
    requires IsDigits(d)
    ensures Atoi("-" + d) == if DecimalValue(d) <= -MinInt then Some(-(DecimalValue(d) as int)) else None
  {
    assert Unsigned("-" + d) == d;
  }

  /** The range is asymmetric: 2^63 is rejected, -2^63 is accepted. */
  lemma AtoiRangeEdges()
    ensures Atoi(NatToDigits(MaxInt + 1)) == None
    ensures Atoi("-" + NatToDigits(MaxInt + 1)) == Some(MinInt)
    ensures Atoi(NatToDigits(MaxInt)) == Some(MaxInt)
  {
    DecimalValueOfDigits(MaxInt + 1);
    DecimalValueOfDigits(MaxInt);
    assert Unsigned("-" + NatToDigits(MaxInt + 1)) == NatToDigits(MaxInt + 1);
  }
}
