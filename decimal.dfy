/** Exact decimal arithmetic as java.math.BigDecimal performs it: values are
    reals, and `divide(d, scale, HALF_UP)` / `setScale(scale, HALF_UP)` round
    the exact result to `scale` fractional digits, ties away from zero. */
module Decimal {

  /** 10 to the power n. */
  function Pow10(n: nat): (r: nat)
    ensures r >= 1
  {
    if n == 0 then 1 else 10 * Pow10(n - 1)
  }

  /** x moved n decimal places to the left: x * 10^n, one digit at a time. */
  function Shift(x: real, n: nat): real
    decreases n
  {
    if n == 0 then x else Shift(10.0 * x, n - 1)
  }

  /** y moved n decimal places to the right: y / 10^n. */
  function Unshift(y: real, n: nat): real {
    if n == 0 then y else Unshift(y, n - 1) / 10.0
  }

  /** Shifting is multiplying by a power of ten. */
  lemma {:induction false} ShiftIsProduct(x: real, n: nat)
    ensures Shift(x, n) == x * (Pow10(n) as real)
    decreases n
  {
    if n > 0 {
      ShiftIsProduct(10.0 * x, n - 1);
      assert (Pow10(n) as real) == 10.0 * (Pow10(n - 1) as real);
    }
  }

  /** Shifting an integer gives the integer times a power of ten. */
  lemma {:induction false} ShiftInteger(m: int, n: nat)
    ensures Shift(m as real, n) == (m * Pow10(n)) as real
    decreases n
  {
    if n > 0 {
      ShiftInteger(10 * m, n - 1);
      assert (10 * m) * Pow10(n - 1) == m * Pow10(n);
    }
  }

  /** Shifting undoes unshifting. */
  lemma {:induction false} ShiftUnshift(y: real, n: nat)
    ensures Shift(Unshift(y, n), n) == y
  {
    if n > 0 {
      ShiftUnshift(y, n - 1);
      ShiftDistributes(Unshift(y, n - 1) / 10.0, n - 1);
    }
  }

  /** Unshifting undoes shifting. */
  lemma {:induction false} UnshiftShift(x: real, n: nat)
    ensures Unshift(Shift(x, n), n) == x
    decreases n
  {
    if n > 0 {
      UnshiftShift(10.0 * x, n - 1);
      UnshiftDistributes(Shift(10.0 * x, n - 1), n - 1);
      ShiftDistributes(x, n - 1);
    }
  }

  /** Shifting commutes with a factor of ten. */
  lemma {:induction false} ShiftDistributes(x: real, n: nat)
    ensures Shift(10.0 * x, n) == 10.0 * Shift(x, n)
    decreases n
  {
    if n > 0 {
      ShiftDistributes(10.0 * x, n - 1);
    }
  }

  /** Unshifting commutes with a factor of ten. */
  lemma {:induction false} UnshiftDistributes(y: real, n: nat)
    ensures Unshift(y, n) == 10.0 * Unshift(y / 10.0, n)
  {
    if n > 0 {
      UnshiftDistributes(y, n - 1);
    }
  }

  /** Shifting keeps the order. */
  lemma {:induction false} ShiftMonotone(x: real, y: real, n: nat)
    requires x <= y
    ensures Shift(x, n) <= Shift(y, n)
    decreases n
  {
    if n > 0 {
      ShiftMonotone(10.0 * x, 10.0 * y, n - 1);
    }
  }

  /** Unshifting keeps the order. */
  lemma {:induction false} UnshiftMonotone(x: real, y: real, n: nat)
    requires x <= y
    ensures Unshift(x, n) <= Unshift(y, n)
  {
    if n > 0 {
      UnshiftMonotone(x, y, n - 1);
    }
  }

  /** Shifting keeps the sign. */
  lemma {:induction false} ShiftSign(x: real, n: nat)
    ensures x >= 0.0 <==> Shift(x, n) >= 0.0
    ensures x <= 0.0 <==> Shift(x, n) <= 0.0
    decreases n
  {
    if n > 0 {
      ShiftSign(10.0 * x, n - 1);
    }
  }

  /** The integer nearest to v, ties rounded away from zero. */
  function RoundNearest(v: real): (n: int)
    ensures (n as real) - 0.5 <= v <= (n as real) + 0.5
    ensures v >= 0.0 ==> n >= 0
    ensures v <= 0.0 ==> n <= 0
    ensures v == (n as real) + 0.5 ==> v < 0.0
    ensures v == (n as real) - 0.5 ==> v > 0.0
  {
    if v >= 0.0 then (v + 0.5).Floor else -((-v) + 0.5).Floor
  }

  /** Larger values never round to smaller integers. */
  lemma RoundNearestMonotone(v: real, w: real)
    requires v <= w
    ensures RoundNearest(v) <= RoundNearest(w)
  {
    if 0.0 <= v {
      FloorMonotone(v + 0.5, w + 0.5);
    } else if w <= 0.0 {
      FloorMonotone((-w) + 0.5, (-v) + 0.5);
    }
  }

  /** Rounding down keeps the order. */
  lemma FloorMonotone(a: real, b: real)
    requires a <= b
    ensures a.Floor <= b.Floor
  {
    assert a.Floor as real <= a < (b.Floor + 1) as real;
  }

  /** The number of units of 10^-scale that HALF_UP rounding of x keeps. */
  function RoundUnits(x: real, scale: nat): int {
    RoundNearest(Shift(x, scale))
  }

  /** BigDecimal rounding of x to `scale` fractional digits, HALF_UP: the
      kept units over 10^scale. Its properties are the lemmas below. */
  function RoundHalfUp(x: real, scale: nat): real {
    Unshift(RoundUnits(x, scale) as real, scale)
  }

  /** Rounding leaves a whole number of units of the last kept digit, moves
      a value by at most half such a unit (measured after shifting both by
      `scale` places), and a tie lies on the side away from zero. */
  lemma RoundHalfUpError(x: real, scale: nat)
    ensures Shift(RoundHalfUp(x, scale), scale) == RoundUnits(x, scale) as real
    ensures -0.5 <= Shift(RoundHalfUp(x, scale), scale) - Shift(x, scale) <= 0.5
    ensures x > 0.0 ==> Shift(RoundHalfUp(x, scale), scale) - Shift(x, scale) != -0.5
    ensures x < 0.0 ==> Shift(RoundHalfUp(x, scale), scale) - Shift(x, scale) != 0.5
  {
    ShiftUnshift(RoundUnits(x, scale) as real, scale);
    ShiftSign(x, scale);
  }

  /** Rounding never turns a value's sign around. */
  lemma RoundHalfUpSign(x: real, scale: nat)
    ensures x >= 0.0 ==> RoundHalfUp(x, scale) >= 0.0
    ensures x <= 0.0 ==> RoundHalfUp(x, scale) <= 0.0
  {
    ShiftSign(x, scale);
    var n := RoundUnits(x, scale) as real;
    ShiftUnshift(n, scale);
    ShiftSign(Unshift(n, scale), scale);
  }

  /** Larger inputs never round to smaller units. */
  lemma RoundUnitsMonotone(x: real, y: real, scale: nat)
    requires x <= y
    ensures RoundUnits(x, scale) <= RoundUnits(y, scale)
  {
    ShiftMonotone(x, y, scale);
    RoundNearestMonotone(Shift(x, scale), Shift(y, scale));
  }

  /** HALF_UP rounding is monotone. */
  lemma RoundHalfUpMonotone(x: real, y: real, scale: nat)
    requires x <= y
    ensures RoundHalfUp(x, scale) <= RoundHalfUp(y, scale)
  {
    RoundUnitsMonotone(x, y, scale);
    UnshiftMonotone(RoundUnits(x, scale) as real, RoundUnits(y, scale) as real, scale);
  }

  /** A value that already has at most `scale` fractional digits is kept. */
  lemma RoundHalfUpExact(m: int, scale: nat)
    ensures RoundHalfUp(Unshift(m as real, scale), scale) == Unshift(m as real, scale)
  {
    ShiftUnshift(m as real, scale);
    assert RoundNearest(m as real) == m;
  }

  /** An integer is kept by rounding at any scale. */
  lemma RoundHalfUpInteger(m: int, scale: nat)
    ensures RoundHalfUp(m as real, scale) == m as real
  {
    ShiftInteger(m, scale);
    var k := m * Pow10(scale);
    assert RoundNearest(k as real) == k;
    UnshiftShift(m as real, scale);
  }

  /** Rounding keeps a value inside integer bounds that enclose it. */
  lemma RoundHalfUpBetween(x: real, lo: int, hi: int, scale: nat)
    requires lo as real <= x <= hi as real
    ensures lo as real <= RoundHalfUp(x, scale) <= hi as real
  {
    RoundHalfUpMonotone(lo as real, x, scale);
    RoundHalfUpMonotone(x, hi as real, scale);
    RoundHalfUpInteger(lo, scale);
    RoundHalfUpInteger(hi, scale);
  }
}
