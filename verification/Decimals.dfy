/**
 * Decimal amounts as exact real numbers, and `ROUND_HALF_UP` (halves away from zero) to a scale.
 * A rounded amount is the integer count of its units: `ToUnits(x, 2)` counts hundredths.
 */
module Decimals {

  type Decimal = real

  function Pow10(scale: nat): (p: nat)
    ensures p >= 1
  {
    if scale == 0 then 1 else 10 * Pow10(scale - 1)
  }

  /** x * 10^scale */
  function Scaled(x: Decimal, scale: nat): Decimal {
    if scale == 0 then x else 10.0 * Scaled(x, scale - 1)
  }

  /** x / 10^scale */
  function Unscaled(x: Decimal, scale: nat): Decimal {
    if scale == 0 then x else Unscaled(x, scale - 1) / 10.0
  }

  function HalfUp(x: Decimal): int {
    if x >= 0.0 then (x + 0.5).Floor else -((-x + 0.5).Floor)
  }

  /** `new Decimal(x).toDP(scale, ROUND_HALF_UP)`, counted in units of 10^-scale. */
  function ToUnits(x: Decimal, scale: nat): int {
    HalfUp(Scaled(x, scale))
  }

  function FromUnits(units: int, scale: nat): Decimal {
    Unscaled(units as real, scale)
  }

  /** x is a whole number of units of 10^-scale. */
  predicate Aligned(x: Decimal, scale: nat) {
    Scaled(x, scale) == ToUnits(x, scale) as real
  }

  function AbsD(x: Decimal): Decimal {
    if x < 0.0 then -x else x
  }

  /** Rounding gives the nearest integer, and of two equally near the one further from zero. */
  lemma HalfUpNearest(x: Decimal, n: int)
    ensures HalfUp(x) == n <==>
      || AbsD(x - n as real) < 0.5
      || (AbsD(x - n as real) == 0.5 && AbsD(n as real) > AbsD(x))
  {
  }

  lemma HalfUpMonotone(x: Decimal, y: Decimal)
    requires x <= y
    ensures HalfUp(x) <= HalfUp(y)
  {
  }

  lemma {:induction false} ScaledLinear(x: Decimal, y: Decimal, scale: nat)
    ensures Scaled(x + y, scale) == Scaled(x, scale) + Scaled(y, scale)
    ensures Scaled(x - y, scale) == Scaled(x, scale) - Scaled(y, scale)
    ensures x <= y ==> Scaled(x, scale) <= Scaled(y, scale)
    ensures x < y ==> Scaled(x, scale) < Scaled(y, scale)
  {
    if scale > 0 {
      ScaledLinear(x, y, scale - 1);
    }
  }

  lemma {:induction false} ScaledZero(scale: nat)
    ensures Scaled(0.0, scale) == 0.0 && Scaled(1.0, scale) == Pow10(scale) as real
  {
    if scale > 0 {
      ScaledZero(scale - 1);
    }
  }

  lemma {:induction false} ScaledUnscaled(x: Decimal, scale: nat)
    ensures Scaled(Unscaled(x, scale), scale) == x
  {
    if scale > 0 {
      ScaledUnscaled(x, scale - 1);
      ScaledTenth(Unscaled(x, scale - 1), scale - 1);
    }
  }

  lemma {:induction false} ScaledTenth(x: Decimal, scale: nat)
    ensures 10.0 * Scaled(x / 10.0, scale) == Scaled(x, scale)
  {
    if scale > 0 {
      ScaledTenth(x, scale - 1);
    }
  }

  lemma UnscaledOf(x: Decimal, units: int, scale: nat)
    requires Scaled(x, scale) == units as real
    ensures FromUnits(units, scale) == x && ToUnits(x, scale) == units && Aligned(x, scale)
  {
    ScaledUnscaled(units as real, scale);
    ScaledLinear(FromUnits(units, scale), x, scale);
    ScaledLinear(x, FromUnits(units, scale), scale);
    HalfUpNearest(units as real, units);
  }

  /** Writing units as a decimal and reading them back loses nothing. */
  lemma UnitsRoundTrip(units: int, scale: nat)
    ensures ToUnits(FromUnits(units, scale), scale) == units && Aligned(FromUnits(units, scale), scale)
  {
    ScaledUnscaled(units as real, scale);
    HalfUpNearest(units as real, units);
  }

  /** A whole number of units within less than half a unit of x is what x rounds to. */
  lemma WithinGapIsRounded(units: int, x: Decimal, gap: Decimal, scale: nat)
    requires AbsD(FromUnits(units, scale) - x) <= gap && Scaled(gap, scale) < 0.5
    ensures ToUnits(x, scale) == units
  {
    var u := FromUnits(units, scale);
    ScaledUnscaled(units as real, scale);
    ScaledLinear(u, x, scale);
    ScaledLinear(x, u, scale);
    ScaledLinear(u - x, gap, scale);
    ScaledLinear(x - u, gap, scale);
    HalfUpNearest(Scaled(x, scale), units);
  }

  // ---------- Stored amounts: Decimal(19,4) columns, counted in units of 10^-4

  const FINE_SCALE := 4
  const FINE_PER_MINOR := 100

  /** Rounding a stored amount to two decimals, half away from zero. */
  function RoundFine(fine: int): int {
    if fine >= 0 then (fine + 50) / 100 else -((-fine + 50) / 100)
  }

  /** `RoundFine` is `toDP(2, ROUND_HALF_UP)` of the amount a count of 10^-4 units stands for. */
  lemma RoundFineIsToUnits(fine: int)
    ensures ToUnits(FromUnits(fine, FINE_SCALE), 2) == RoundFine(fine)
  {
    var x := FromUnits(fine, FINE_SCALE);
    assert Unscaled(fine as real, 1) == fine as real / 10.0;
    assert Unscaled(fine as real, 2) == fine as real / 100.0;
    assert Unscaled(fine as real, 3) == fine as real / 1000.0;
    assert x == fine as real / 10000.0;
    assert Scaled(x, 1) == 10.0 * Scaled(x, 0);
    assert Scaled(x, 2) == fine as real / 100.0;
    var m := if fine >= 0 then fine else -fine;
    assert ((m as real / 100.0) + 0.5).Floor == (m + 50) / 100;
  }
}
