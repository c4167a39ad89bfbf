/** The integer arithmetic the pages do through `Math.round`. */
module Arith {

  /** `Math.round(n / d)` for non-negative `n` and positive `d`: the nearest
      integer, halves rounded up. */
  function RoundDiv(n: nat, d: nat): (r: nat)
    requires d > 0
    ensures 2 * d * r <= 2 * n + d < 2 * d * (r + 1)
  {
    var q := (2 * n + d) / (2 * d);
    assert (2 * n + d) == (2 * d) * q + (2 * n + d) % (2 * d);
    q
  }

  lemma MulMonotone(d: int, x: int, y: int)
    requires d >= 0
    ensures x <= y ==> d * x <= d * y
  {
  }

  lemma MulCancel(d: int, a: int, b: int)
    requires d > 0 && d * a < d * b
    ensures a < b
  {
    MulMonotone(d, b, a);
  }

  /** The rounded quotient is within half a unit of the exact one, and
      a whole quotient is returned unchanged. */
  lemma RoundDivExact(k: nat, d: nat)
    requires d > 0
    ensures RoundDiv(k * d, d) == k
  {
    var r := RoundDiv(k * d, d);
    assert 2 * d * r < 2 * d * (k + 1);
    MulCancel(2 * d, r, k + 1);
    assert 2 * d * k < 2 * d * (r + 1);
    MulCancel(2 * d, k, r + 1);
  }

  /** Rounding is monotone in the numerator. */
  lemma RoundDivMonotone(m: nat, n: nat, d: nat)
    requires d > 0 && m <= n
    ensures RoundDiv(m, d) <= RoundDiv(n, d)
  {
    var a := RoundDiv(m, d);
    var b := RoundDiv(n, d);
    assert 2 * d * a < 2 * d * (b + 1);
    MulCancel(2 * d, a, b + 1);
  }

  /** `Math.round((part / whole) * 100)`: a percentage, 0 when `whole` is 0. */
  function Percentage(part: nat, whole: nat): (p: nat)
    requires part <= whole
    ensures whole == 0 ==> p == 0
    ensures whole > 0 ==> 2 * whole * p <= 200 * part + whole < 2 * whole * (p + 1)
    ensures p <= 100
    ensures part == whole && whole > 0 ==> p == 100
    ensures part == 0 ==> p == 0
  {
    if whole == 0 then 0
    else
      RoundDivMonotone(100 * part, 100 * whole, whole);
      RoundDivExact(100, whole);
      RoundDivExact(0, whole);
      RoundDiv(100 * part, whole)
  }
}
