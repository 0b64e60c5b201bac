/**
 * Decimal rendering of non-negative integers, as JavaScript's `String(n)`,
 * `n.toString()` and template literals `${n}` write them.
 */
module Decimal {

  predicate IsDigit(ch: char) {
    '0' <= ch <= '9'
  }

  predicate IsDigitString(s: string) {
    forall i :: 0 <= i < |s| ==> IsDigit(s[i])
  }

  function DigitChar(d: nat): (ch: char)
    requires d < 10
    ensures IsDigit(ch)
  {
    ('0' as int + d) as char
  }

  function DigitValue(ch: char): (d: nat)
    requires IsDigit(ch)
    ensures d < 10
  {
    ch as int - '0' as int
  }

  /** `String(n)` for a non-negative integer: no sign, no leading zero. */
  function Dec(n: nat): (s: string)
    ensures |s| >= 1
    ensures IsDigitString(s)
    ensures s[0] == '0' ==> n == 0
  {
    if n < 10 then [DigitChar(n)] else Dec(n / 10) + [DigitChar(n % 10)]
  }

  /** Reads a string of decimal digits back as a number. */
  function ParseDec(s: string): nat
    requires IsDigitString(s)
  {
    if |s| == 0 then 0 else ParseDec(s[..|s| - 1]) * 10 + DigitValue(s[|s| - 1])
  }

  /** Parsing undoes rendering. */
  lemma {:induction false} ParseDecDec(n: nat)
    ensures ParseDec(Dec(n)) == n
  {
    if n >= 10 {
      var s := Dec(n);
      assert s[..|s| - 1] == Dec(n / 10);
      ParseDecDec(n / 10);
    }
  }

  /** Distinct numbers are written as distinct strings. */
  lemma DecInjective(a: nat, b: nat)
    requires Dec(a) == Dec(b)
    ensures a == b
  {
    ParseDecDec(a);
    ParseDecDec(b);
  }

  lemma DecInjectiveAll()
    ensures forall a: nat, b: nat :: Dec(a) == Dec(b) ==> a == b
  {
    forall a: nat, b: nat | Dec(a) == Dec(b) ensures a == b {
      DecInjective(a, b);
    }
  }
}
