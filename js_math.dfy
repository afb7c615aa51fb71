/**
 * The two pieces of JavaScript's number handling the game depends on:
 * `Math.round` applied to a quotient of integers, and the decimal text a number
 * becomes inside a template literal.
 */
module JsMath {

  /**
   * `Math.round(num / den)` for a positive denominator, computed exactly.
   * `Math.round(x)` is `floor(x + 1/2)` (halves round up, also for negative x),
   * and `floor((2 num + den) / (2 den))` is that same value.
   */
  function RoundDiv(num: int, den: int): (r: int)
    requires den > 0
    ensures 2 * den * r <= 2 * num + den < 2 * den * r + 2 * den
  {
    var q := (2 * num + den) / (2 * den);
    var m := (2 * num + den) % (2 * den);
    assert 2 * num + den == 2 * den * q + m;
    q
  }

  /** Cancelling a positive factor from a strict inequality */
  lemma MulLtCancel(c: int, a: int, b: int)
    requires c > 0 && c * a < c * b
    ensures a < b
  {
  }

  function DigitChar(d: nat): (c: char)
    requires d < 10
    ensures '0' <= c <= '9'
  {
    "0123456789"[d]
  }

  predicate IsDigits(s: string) {
    forall i :: 0 <= i < |s| ==> '0' <= s[i] <= '9'
  }

  /** The value of a string of decimal digits (the empty string reads as 0) */
  function DecimalValue(s: string): nat
    requires IsDigits(s)
  {
    if s == [] then 0 else 10 * DecimalValue(s[..|s| - 1]) + (s[|s| - 1] - '0') as nat
  }

  /** The decimal text of a natural number, without sign or leading zeros */
  function NatToString(n: nat): (s: string)
    ensures IsDigits(s) && |s| >= 1
    ensures |s| > 1 ==> s[0] != '0'
    ensures s[0] == '0' <==> n == 0
  {
    if n < 10 then [DigitChar(n)] else NatToString(n / 10) + [DigitChar(n % 10)]
  }

  /** Reading back the text of a number gives the number */
  lemma {:induction false} NatToStringRoundTrip(n: nat)
    ensures DecimalValue(NatToString(n)) == n
  {
    var s := NatToString(n);
    if n >= 10 {
      NatToStringRoundTrip(n / 10);
      assert s[..|s| - 1] == NatToString(n / 10);
    }
  }

  /**
   * `${n}` for an integer n: the decimal digits of |n| without leading zeros,
   * after a "-" when n is negative
   */
  function IntToString(n: int): (s: string)
    ensures |s| >= 1
    ensures n >= 0 ==> IsDigits(s) && DecimalValue(s) == n
    ensures n >= 0 ==> (|s| > 1 ==> s[0] != '0') && (s[0] == '0' <==> n == 0)
    ensures n < 0 ==> |s| >= 2 && s[0] == '-' && IsDigits(s[1..]) && DecimalValue(s[1..]) == -n
    ensures n < 0 ==> s[1] != '0'
  {
    if n >= 0 then
      NatToStringRoundTrip(n);
      NatToString(n)
    else
      var t := NatToString(-n);
      NatToStringRoundTrip(-n);
      assert ("-" + t)[1..] == t;
      "-" + t
  }
}
