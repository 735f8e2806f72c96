/**
 * Money arithmetic of the tax engine. Every amount is an exact decimal in the
 * source, so it is an exact `real` here; rounding happens only where the
 * source asks for it, always to two decimal places (whole cents).
 */
module Money {

  /** `x` is a whole number of cents. */
  predicate WholeCents(x: real) {
    (x * 100.0).Floor as real == x * 100.0
  }

  function Min(a: real, b: real): real { if a <= b then a else b }

  function Max(a: real, b: real): real { if a >= b then a else b }

  function Abs(a: real): real { if a >= 0.0 then a else -a }

  /**
   * decimal.js `toDecimalPlaces(2, ROUND_HALF_UP)` (also its default rounding
   * mode): the nearest whole cent, a tie going away from zero (the strict
   * bounds rule out the cent nearer zero at a tie).
   */
  function HalfUp2(x: real): (r: real)
    ensures WholeCents(r)
    ensures x - 0.005 <= r <= x + 0.005
    ensures 0.0 <= x ==> x - 0.005 < r
    ensures x < 0.0 ==> r < x + 0.005
    ensures 0.0 <= x ==> 0.0 <= r
    ensures x <= 0.0 ==> r <= 0.0
  {
    if x >= 0.0 then
      var n := (x * 100.0 + 0.5).Floor;
      assert n as real / 100.0 * 100.0 == n as real;
      n as real / 100.0
    else
      var n := (-x * 100.0 + 0.5).Floor;
      assert -(n as real / 100.0) * 100.0 == (-n) as real;
      -(n as real / 100.0)
  }

  /** decimal.js `toDecimalPlaces(2, ROUND_UP)`: to whole cents, away from zero. */
  function RoundUp2(x: real): (r: real)
    ensures WholeCents(r)
    ensures 0.0 <= x ==> x <= r < x + 0.01
    ensures x <= 0.0 ==> x - 0.01 < r <= x
  {
    if x >= 0.0 then
      var n := -((-x * 100.0).Floor);
      assert n as real / 100.0 * 100.0 == n as real;
      n as real / 100.0
    else
      var n := (x * 100.0).Floor;
      assert n as real / 100.0 * 100.0 == n as real;
      n as real / 100.0
  }

  /**
   * `round` of the engine's utilities. Its definition is not part of this
   * model; it is taken to be the documented rounding, half-up to cents.
   */
  function Round(x: real): real {
    HalfUp2(x)
  }

  /** `percentage(amount, pct)` of the engine's utilities: pct percent of amount, unrounded. */
  function Percentage(amount: real, pct: int): real {
    amount * pct as real / 100.0
  }

  /** Rounding to cents never reverses the order of two amounts. */
  lemma HalfUp2Monotone(x: real, y: real)
    requires x <= y
    ensures HalfUp2(x) <= HalfUp2(y)
  {
    if 0.0 <= x {
      assert (x * 100.0 + 0.5).Floor <= (y * 100.0 + 0.5).Floor;
    } else if y < 0.0 {
      assert (-y * 100.0 + 0.5).Floor <= (-x * 100.0 + 0.5).Floor;
    }
  }

  /** Rounding half-up (away from zero) is symmetric around zero. */
  lemma HalfUp2Odd(x: real)
    ensures HalfUp2(-x) == -HalfUp2(x)
  {
  }

  /** Rounding half-up gives a negative amount exactly when `x` is at least half a cent below zero. */
  lemma HalfUp2Negative(x: real)
    ensures HalfUp2(x) < 0.0 <==> x <= -0.005
  {
    if x < 0.0 {
      var n := (-x * 100.0 + 0.5).Floor;
      assert HalfUp2(x) == -(n as real / 100.0);
      assert 1 <= n <==> 1.0 <= -x * 100.0 + 0.5;
    }
  }

  /** Rounding up gives back an amount already in whole cents. */
  lemma RoundUp2Exact(x: real)
    requires WholeCents(x)
    ensures RoundUp2(x) == x
  {
    var n := (x * 100.0).Floor;
    if x >= 0.0 {
      assert (-x * 100.0).Floor == -n;
    }
  }

  /** An amount already in whole cents is left as it is. */
  lemma HalfUp2Exact(x: real)
    requires WholeCents(x)
    ensures HalfUp2(x) == x
  {
    var n := (x * 100.0).Floor;
    if x >= 0.0 {
      assert (x * 100.0 + 0.5).Floor == n;
    } else {
      assert (-x * 100.0 + 0.5).Floor == -n;
    }
  }
}
