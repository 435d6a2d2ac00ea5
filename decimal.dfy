/** Decimal rendering of the random business number, `Number.prototype.toString`
    on a non-negative integer. */
module Decimal {

  predicate IsDigit(ch: char) {
    '0' <= ch <= '9'
  }

  predicate AllDigits(s: string) {
    forall i :: 0 <= i < |s| ==> IsDigit(s[i])
  }

  function DigitChar(d: nat): (ch: char)
    requires d < 10
    ensures IsDigit(ch) && ch as int - '0' as int == d
  {
    ('0' as int + d) as char
  }

  /** The shortest decimal numeral of `n`. */
  function ToDecimal(n: nat): (s: string)
    ensures |s| >= 1 && AllDigits(s)
    ensures n >= 10 ==> s[0] != '0'
  {
    if n < 10 then [DigitChar(n)] else ToDecimal(n / 10) + [DigitChar(n % 10)]
  }

  /** The value of a numeral. */
  function ParseDecimal(s: string): nat
    requires AllDigits(s)
  {
    if s == [] then 0
    else ParseDecimal(s[..|s| - 1]) * 10 + (s[|s| - 1] as int - '0' as int)
  }

  /** Reading back the numeral of `n` gives `n`. */
  lemma {:induction false} ParseToDecimal(n: nat)
    ensures ParseDecimal(ToDecimal(n)) == n
  {
    var s := ToDecimal(n);
    if n < 10 {
      assert s[..|s| - 1] == [];
    } else {
      assert s[..|s| - 1] == ToDecimal(n / 10);
      ParseToDecimal(n / 10);
    }
  }

  function Pow10(k: nat): (p: nat)
    ensures p >= 1
  {
    if k == 0 then 1 else 10 * Pow10(k - 1)
  }

  /** A number with `k` digits has a numeral of length `k`. */
  lemma {:induction false} ToDecimalLength(n: nat, k: nat)
    requires 1 <= k && Pow10(k - 1) <= n < Pow10(k)
    ensures |ToDecimal(n)| == k
  {
    if k > 1 {
      ToDecimalLength(n / 10, k - 1);
    }
  }

  const MinBusinessNumber: nat := 10000000
  const BusinessNumberRange: nat := 90000000

  /** `Math.floor(1e7 + Math.random()*9e7).toString()` where `draw` is the
      integer part of `Math.random()*9e7`: an 8-digit numeral without a
      leading zero whose value is `1e7 + draw`. */
  function BusinessNumber(draw: nat): (s: string)
    requires draw < BusinessNumberRange
    ensures |s| == 8 && AllDigits(s) && s[0] != '0'
    ensures ParseDecimal(s) == MinBusinessNumber + draw
  {
    var n := MinBusinessNumber + draw;
    assert Pow10(7) == 10000000 && Pow10(8) == 100000000;
    ToDecimalLength(n, 8);
    ParseToDecimal(n);
    ToDecimal(n)
  }
}
