/**
 * Numeric helpers shared by the viewport and the tile provider: integer
 * powers of two, Kotlin's clamping functions, Kotlin's Float-to-Int
 * conversion (truncation toward zero) and the truncated base-2 logarithm.
 */
module MapMath {

  /** 2^n, the value of `2.0.pow(n)` for a non-negative whole exponent. */
  function Pow2(n: nat): (r: nat)
    ensures r >= 1
  {
    if n == 0 then 1 else 2 * Pow2(n - 1)
  }

  lemma {:induction false} Pow2Monotone(a: nat, b: nat)
    requires a <= b
    ensures Pow2(a) <= Pow2(b)
  {
    if a < b {
      Pow2Monotone(a, b - 1);
    }
  }

  lemma {:induction false} Pow2StrictlyMonotone(a: nat, b: nat)
    requires a < b
    ensures Pow2(a) < Pow2(b)
  {
    Pow2Monotone(a, b - 1);
  }

  /** `kotlin.math.max` and `coerceAtLeast` on Float (NaN is not modelled). */
  function Max(a: real, b: real): (r: real)
    ensures r >= a && r >= b && (r == a || r == b)
  {
    if a >= b then a else b
  }

  /** `kotlin.math.min` and `coerceAtMost` on Float. */
  function Min(a: real, b: real): (r: real)
    ensures r <= a && r <= b && (r == a || r == b)
  {
    if a <= b then a else b
  }

  /** `Int.coerceIn(lo, hi)`; Kotlin throws when lo > hi, hence the requires. */
  function CoerceIn(v: int, lo: int, hi: int): (r: int)
    requires lo <= hi
    ensures lo <= r <= hi
    ensures lo <= v <= hi ==> r == v
    ensures v < lo ==> r == lo
    ensures v > hi ==> r == hi
  {
    if v < lo then lo else if v > hi then hi else v
  }

  /**
   * Kotlin's `Float.toInt()`: rounds toward zero, so it differs from
   * `Floor` on every negative non-integral argument.
   */
  function Trunc(x: real): (i: int)
    ensures x >= 0.0 ==> 0 <= i && i as real <= x < i as real + 1.0
    ensures x < 0.0 ==> i <= 0 && i as real - 1.0 < x <= i as real
  {
    if x >= 0.0 then x.Floor else -((-x).Floor)
  }

  lemma TruncMonotone(a: real, b: real)
    requires a <= b
    ensures Trunc(a) <= Trunc(b)
  {
  }

  /** A power of two at most s is at most the power just below 2^(a+1) > s. */
  lemma Pow2Below(s: real, a: nat, b: nat)
    requires Pow2(b) as real <= s < Pow2(a + 1) as real
    ensures b <= a
  {
    if b > a {
      Pow2Monotone(a + 1, b);
    }
  }

  /** The truncated base-2 logarithm of s >= 1: the k with 2^k <= s < 2^(k+1). */
  function FloorLog2(s: real): (k: nat)
    requires s >= 1.0
    ensures Pow2(k) as real <= s < Pow2(k + 1) as real
    decreases s.Floor
  {
    if s < 2.0 then 0 else 1 + FloorLog2(s / 2.0)
  }
}
