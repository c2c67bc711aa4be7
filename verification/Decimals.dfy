/** Exact decimals are reals. Division is the one inexact operation of the decimal library: it
    rounds half away from zero at sixteen places. Cent rounding is the same rule at two places. */
module Decimals {

  const SCALE := 10000000000000000.0
  const HALF_UNIT := 0.5 / SCALE

  function RoundHalfAway(x: real): (n: int)
    ensures -0.5 <= n as real - x <= 0.5
    ensures n as real - x == 0.5 ==> x >= 0.0
    ensures n as real - x == -0.5 ==> x < 0.0
    ensures x >= 0.0 ==> n >= 0
  {
    if x >= 0.0 then (x + 0.5).Floor else -((-x + 0.5).Floor)
  }

  /** The quotient of two decimals, within half a unit of the sixteenth place. */
  function Div(x: real, y: real): (r: real)
    requires y != 0.0
    ensures -HALF_UNIT <= r - x / y <= HALF_UNIT
  {
    RoundHalfAway(x / y * SCALE) as real / SCALE
  }

  function Abs(x: real): (r: real)
    ensures r >= 0.0 && (r == x || r == -x)
  {
    if x < 0.0 then -x else x
  }

  /** The exact proportional share of a total. */
  function Share(total: real, part: real, whole: real): real
    requires whole > 0.0
  {
    total * part / whole
  }

  /** The share as the decimal library computes it: the exact product, then one division. */
  function Prorate(total: real, part: real, whole: real): (r: real)
    requires whole > 0.0
    ensures -HALF_UNIT <= r - Share(total, part, whole) <= HALF_UNIT
    ensures total >= 0.0 && part >= 0.0 ==> r >= 0.0
  {
    var product := total * part;
    assert total >= 0.0 && part >= 0.0 ==> Div(product, whole) >= 0.0 by {
      if total >= 0.0 && part >= 0.0 {
        ProductNonNegative(total, part);
        DivNonNegative(product, whole);
      }
    }
    Div(product, whole)
  }

  /** An amount of whole cents. */
  predicate WholeCents(x: real) {
    (x * 100.0).Floor as real == x * 100.0
  }

  function Round2(x: real): (r: real)
    ensures -0.005 <= r - x <= 0.005 && WholeCents(r)
    ensures r - x == 0.005 ==> x >= 0.0
    ensures r - x == -0.005 ==> x < 0.0
  {
    RoundHalfAway(x * 100.0) as real / 100.0
  }

  lemma DivNonNegative(x: real, y: real)
    requires x >= 0.0 && y > 0.0
    ensures Div(x, y) >= 0.0
  {
    assert x / y >= 0.0;
    assert x / y * SCALE >= 0.0;
  }

  lemma DivZero(y: real)
    requires y != 0.0
    ensures Div(0.0, y) == 0.0
  {
    assert 0.0 / y == 0.0;
  }

  lemma ProductNonNegative(a: real, b: real)
    requires a >= 0.0 && b >= 0.0
    ensures a * b >= 0.0
  {
  }

  lemma ProductPositive(a: real, b: real)
    requires a > 0.0 && b > 0.0
    ensures a * b > 0.0
  {
  }

  /** A quotient is monotone in its dividend. */
  lemma QuotientMonotone(a: real, b: real, q: real)
    requires a <= b && q > 0.0
    ensures a / q <= b / q
  {
    assert b / q - a / q == (b - a) / q;
  }
}
