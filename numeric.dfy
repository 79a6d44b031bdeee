/** `Math.round` of an exact quotient, and the accuracy percentage the game, the chatbot,
    the statistics panel and the pie chart all compute as
    `total > 0 ? Math.round((part / total) * 100) : 0`.
    The quotient is taken as an exact rational: IEEE double rounding is not modelled. */
module Numeric {

  /** `Math.round(num / den)`: the nearest integer, halves rounded up. */
  function RoundHalfUp(num: int, den: int): (r: int)
    requires den > 0
    ensures 2 * den * r <= 2 * num + den < 2 * den * r + 2 * den
  {
    var q := (2 * num + den) / (2 * den);
    assert 2 * num + den == (2 * den) * q + (2 * num + den) % (2 * den);
    q
  }

  /** The rounded percentage of `part` in `whole`, and 0 when `whole` is not positive. */
  function Percent(part: int, whole: int): (p: int)
    ensures whole > 0 ==> 2 * whole * p <= 200 * part + whole < 2 * whole * p + 2 * whole
    ensures whole <= 0 ==> p == 0
  {
    if whole > 0 then RoundHalfUp(100 * part, whole) else 0
  }

  /** Multiplying by a positive factor preserves strict order, in both directions. */
  lemma MulStrict(d: int, x: int, y: int)
    requires d > 0
    ensures d * x < d * y <==> x < y
  {
    if x < y {
      assert d * y - d * x == d * (y - x);
    } else {
      assert d * x - d * y == d * (x - y);
    }
  }

  /** A share of a whole is a percentage between 0 and 100. */
  lemma PercentInRange(part: int, whole: int)
    requires 0 <= part <= whole
    ensures 0 <= Percent(part, whole) <= 100
  {
    if whole > 0 {
      var r := RoundHalfUp(100 * part, whole);
      assert 2 * whole * 0 < 2 * whole * (r + 1);
      MulStrict(2 * whole, 0, r + 1);
      assert 2 * whole * r < 2 * whole * 101;
      MulStrict(2 * whole, r, 101);
    }
  }

  /** The percentage is exactly the ratio when that ratio is whole, e.g. 0, 50 or 100. */
  lemma PercentExact(part: int, whole: int, p: int)
    requires whole > 0 && 100 * part == p * whole
    ensures Percent(part, whole) == p
  {
    var r := RoundHalfUp(100 * part, whole);
    assert 2 * whole * r < 2 * whole * (p + 1);
    MulStrict(2 * whole, r, p + 1);
    assert 2 * whole * (p - 1) < 2 * whole * r;
    MulStrict(2 * whole, p - 1, r);
  }

  /** The percentage reaches `threshold` exactly when the ratio is at least `threshold - 1/2`:
      for the end-of-game rule (threshold 70) that is an accuracy of 69.5% or more. */
  lemma PercentAtLeast(part: int, whole: int, threshold: int)
    requires whole > 0
    ensures Percent(part, whole) >= threshold <==> 200 * part >= (2 * threshold - 1) * whole
  {
    var r := RoundHalfUp(100 * part, whole);
    MulStrict(2 * whole, r, threshold);
    MulStrict(2 * whole, threshold - 1, r);
  }
}
