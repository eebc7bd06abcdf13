/** Percentages the dashboard computes with floating-point division, stated
    here over exact rationals. */
module Rates {

  /** `part / whole * 100`, exactly. */
  function Percentage(part: int, whole: int): (r: real)
    requires whole != 0
    ensures r * whole as real == part as real * 100.0
  {
    part as real / whole as real * 100.0
  }

  /** A share of a positive whole lies between 0 and 100. */
  lemma PercentageBounds(part: int, whole: int)
    requires 0 <= part <= whole && whole > 0
    ensures 0.0 <= Percentage(part, whole) <= 100.0
  {
    var r := Percentage(part, whole);
    var w := whole as real;
    assert r * w == part as real * 100.0;
    assert r * w <= 100.0 * w;
    assert r * w >= 0.0;
  }

  /** The percentage to two decimals, in hundredths, rounded half up:
      `round(part / whole * 10000)`. */
  function HalfUpHundredths(part: int, whole: int): int
    requires whole > 0
  {
    (20000 * part + whole) / (2 * whole)
  }

  /** The rounded value is the nearest number of hundredths: it is off from the
      exact `part * 10000 / whole` by at most half a hundredth, ties going up. */
  lemma HalfUpNearest(part: int, whole: int)
    requires whole > 0
    ensures var h := HalfUpHundredths(part, whole);
      -whole < 2 * (h * whole - 10000 * part) <= whole
  {
    var n, d := 20000 * part + whole, 2 * whole;
    var h := n / d;
    assert n == h * d + n % d && 0 <= n % d < d;
  }
}
