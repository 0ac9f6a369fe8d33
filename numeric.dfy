/**
 * Exact arithmetic shared by the projection code: natural powers, JavaScript's
 * `Math.round`, clamping, and the compound-interest / annuity formulas that both
 * the goal simulator (required monthly savings) and the goal analysis dialog
 * (projection table) use.
 *
 * Money is modelled over `real`, so there is no floating-point rounding here.
 */
module Numeric {

  /** `Math.pow(x, n)` for a whole exponent. */
  function Pow(x: real, n: nat): real
  {
    if n == 0 then 1.0 else x * Pow(x, n - 1)
  }

  /**
   * `Math.round(x)`: the nearest integer, halves rounded towards +infinity,
   * which is exactly `floor(x + 0.5)`.
   */
  function Round(x: real): (r: int)
    ensures x - 0.5 < r as real <= x + 0.5
  {
    (x + 0.5).Floor
  }

  lemma RoundMonotone(x: real, y: real)
    requires x <= y
    ensures Round(x) <= Round(y)
  {
  }

  function Min(a: int, b: int): int { if a <= b then a else b }

  function Max(a: int, b: int): int { if a >= b then a else b }

  /** `Math.max(lo, Math.min(hi, x))`. */
  function Clamp(lo: int, hi: int, x: int): (r: int)
    requires lo <= hi
    ensures lo <= r <= hi
    ensures lo <= x <= hi ==> r == x
    ensures x < lo ==> r == lo
    ensures x > hi ==> r == hi
  {
    Max(lo, Min(hi, x))
  }

  /**
   * Reference definition of saving month by month: start with `p`, and every
   * month grow the balance by the rate `r` and then add the payment `c`.
   */
  function Compound(p: real, c: real, r: real, n: nat): real
  {
    if n == 0 then p else Compound(p, c, r, n - 1) * (1.0 + r) + c
  }

  /** The closed-form annuity factor `((1 + r)^n - 1) / r`. */
  function AnnuityFactor(r: real, n: nat): real
    requires r != 0.0
  {
    (Pow(1.0 + r, n) - 1.0) / r
  }

  /** Closed-form future value of a principal plus a level monthly payment. */
  function FutureValue(p: real, c: real, r: real, n: nat): real
    requires r != 0.0
  {
    p * Pow(1.0 + r, n) + c * AnnuityFactor(r, n)
  }

  lemma MulNonNegative(a: real, b: real)
    requires a >= 0.0 && b >= 0.0
    ensures a * b >= 0.0
  {
  }

  lemma CancelPositiveFactor(x: real, y: real, c: real)
    requires c > 0.0 && x * c <= y * c
    ensures x <= y
  {
  }

  lemma CancelFactor(x: real, y: real, r: real)
    requires r != 0.0 && x * r == y * r
    ensures x == y
  {
    assert (x - y) * r == 0.0;
  }

  lemma DivSelf(x: real)
    requires x != 0.0
    ensures x / x == 1.0
  {
  }

  lemma HalfShare(x: real)
    requires x != 0.0
    ensures x / (x + x) == 0.5
  {
  }

  lemma ShareAtMostOne(x: real, y: real)
    requires 0.0 <= x <= y && y > 0.0
    ensures 0.0 <= x / y <= 1.0
  {
    DivThenMul(x, y);
    CancelPositiveFactor(x / y, 1.0, y);
  }

  lemma DivThenMul(x: real, r: real)
    requires r != 0.0
    ensures (x / r) * r == x
  {
  }

  /** `x / y * 100` scaled back by y. */
  lemma PercentTimes(x: real, y: real)
    requires y != 0.0
    ensures (x / y * 100.0) * y == x * 100.0
  {
    var q := x / y;
    DivThenMul(x, y);
    assert (q * 100.0) * y == (q * y) * 100.0;
  }

  /** What `x / y * 100` is, for a positive y: a percentage of y. */
  lemma PercentOf(x: real, y: real)
    requires y > 0.0
    ensures (x / y * 100.0) * y == x * 100.0
    ensures x >= y ==> x / y * 100.0 >= 100.0
    ensures x <= y ==> x / y * 100.0 <= 100.0
    ensures x >= 0.0 ==> x / y * 100.0 >= 0.0
  {
    var q := x / y;
    DivThenMul(x, y);
    PercentTimes(x, y);
    if x >= y {
      assert 1.0 * y <= q * y;
      CancelPositiveFactor(1.0, q, y);
    }
    if x <= y {
      assert q * y <= 1.0 * y;
      CancelPositiveFactor(q, 1.0, y);
    }
    if x >= 0.0 {
      assert 0.0 * y <= q * y;
      CancelPositiveFactor(0.0, q, y);
    }
  }

  /** A value whose multiple by a positive weight lies between two multiples lies between the factors. */
  lemma BetweenByFactor(lo: real, x: real, hi: real, w: real)
    requires w > 0.0 && lo * w <= x * w <= hi * w
    ensures lo <= x <= hi
  {
    CancelPositiveFactor(lo, x, w);
    CancelPositiveFactor(x, hi, w);
  }

  /** The annuity factor satisfies the one-month recurrence A(n) = A(n-1)(1+r) + 1. */
  lemma AnnuityStep(r: real, n: nat)
    requires r != 0.0 && n > 0
    ensures AnnuityFactor(r, n) == AnnuityFactor(r, n - 1) * (1.0 + r) + 1.0
  {
    var g := Pow(1.0 + r, n - 1);
    var a := AnnuityFactor(r, n - 1);
    var an := AnnuityFactor(r, n);
    DivThenMul(g - 1.0, r);
    DivThenMul((1.0 + r) * g - 1.0, r);
    assert a * r == g - 1.0;
    assert an * r == (1.0 + r) * g - 1.0;
    assert (a * (1.0 + r) + 1.0) * r == (1.0 + r) * (a * r) + r;
    CancelFactor(an, a * (1.0 + r) + 1.0, r);
  }

  /** The ring identity behind one month of the closed form. */
  lemma Regroup(p: real, c: real, g: real, a: real, r: real)
    ensures p * ((1.0 + r) * g) + c * (a * (1.0 + r) + 1.0) == (p * g + c * a) * (1.0 + r) + c
  {
  }

  /**
   * The closed-form future value is exactly what monthly compounding with a
   * level payment produces.
   */
  lemma {:induction false} FutureValueIsCompounding(p: real, c: real, r: real, n: nat)
    requires r != 0.0
    ensures FutureValue(p, c, r, n) == Compound(p, c, r, n)
  {
    if n > 0 {
      FutureValueIsCompounding(p, c, r, n - 1);
      AnnuityStep(r, n);
      var g := Pow(1.0 + r, n - 1);
      var a := AnnuityFactor(r, n - 1);
      assert Pow(1.0 + r, n) == (1.0 + r) * g;
      Regroup(p, c, g, a, r);
    }
  }

  lemma BernoulliStep(r: real, g: real, k: real)
    requires r >= 0.0 && k >= 0.0 && g >= 1.0 + k * r
    ensures (1.0 + r) * g >= 1.0 + (k + 1.0) * r
  {
    MulNonNegative(1.0 + r, g - (1.0 + k * r));
    MulNonNegative(k * r, r);
    assert (1.0 + r) * (1.0 + k * r) == 1.0 + (k + 1.0) * r + k * r * r;
  }

  /** Bernoulli's inequality: (1 + r)^n >= 1 + n r for r >= 0. */
  lemma {:induction false} Bernoulli(r: real, n: nat)
    requires r >= 0.0
    ensures Pow(1.0 + r, n) >= 1.0 + n as real * r
  {
    if n > 0 {
      Bernoulli(r, n - 1);
      BernoulliStep(r, Pow(1.0 + r, n - 1), (n - 1) as real);
    }
  }

  /** With a positive rate, saving for n months earns at least the n payments. */
  lemma AnnuityAtLeastMonths(r: real, n: nat)
    requires r > 0.0
    ensures AnnuityFactor(r, n) >= n as real
  {
    Bernoulli(r, n);
    assert Pow(1.0 + r, n) - 1.0 >= n as real * r;
  }

  /** With a positive rate, a non-empty horizon makes the annuity factor positive. */
  lemma AnnuityPositive(r: real, n: nat)
    requires r > 0.0 && n > 0
    ensures AnnuityFactor(r, n) > 0.0
  {
    AnnuityAtLeastMonths(r, n);
  }

  /** Compounding at a non-negative rate never shrinks a non-negative amount. */
  lemma GrowthAtLeastOne(r: real, n: nat)
    requires r >= 0.0
    ensures Pow(1.0 + r, n) >= 1.0
  {
    Bernoulli(r, n);
    assert n as real * r >= 0.0;
  }
}
