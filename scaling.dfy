/**
 * The render-scale arithmetic of the camera renderer: the scale is clamped
 * to [0.1, 2] and each pixel dimension is multiplied by it and cast to an
 * integer. Floats are modelled as reals, so rounding of the product is not
 * modelled; the cast of a non-negative value is the floor.
 *
 * The product of a pixel count and a scale is written as repeated addition,
 * which keeps the reasoning about it linear; `ProductIsMultiplication` ties
 * it to ordinary multiplication.
 */
module Scaling {

  /** `Mathf.Clamp(scale, 0.1, 2)`. */
  function ClampScale(scale: real): (r: real)
    ensures 0.1 <= r <= 2.0
    ensures 0.1 <= scale <= 2.0 ==> r == scale
    ensures scale < 0.1 ==> r == 0.1
    ensures scale > 2.0 ==> r == 2.0
  {
    if scale < 0.1 then 0.1 else if scale > 2.0 then 2.0 else scale
  }

  /** `n * s`, for a pixel count `n`. */
  function Product(n: nat, s: real): (r: real)
    ensures s >= 0.0 ==> r >= 0.0
  {
    if n == 0 then 0.0 else Product(n - 1, s) + s
  }

  lemma {:induction false} ProductIsMultiplication(n: nat, s: real)
    ensures Product(n, s) == n as real * s
  {
    if n > 0 {
      ProductIsMultiplication(n - 1, s);
    }
  }

  /** The `(int)` cast of a non-negative float: truncation toward zero, which is the floor there. */
  function Truncate(x: real): (n: nat)
    requires x >= 0.0
    ensures n as real <= x < n as real + 1.0
  {
    x.Floor
  }

  /** One pixel dimension scaled by the clamped scale and truncated. */
  function Scaled(n: nat, scale: real): nat {
    Truncate(Product(n, ClampScale(scale)))
  }

  /** A scale between 1 and 2 gives a product between `n` and `2n`. */
  lemma {:induction false} ProductUp(n: nat, s: real)
    requires 1.0 <= s <= 2.0
    ensures n as real <= Product(n, s) <= 2.0 * n as real
  {
    if n > 0 {
      ProductUp(n - 1, s);
    }
  }

  /** A scale between 0.1 and 1 gives a product between a tenth of `n` and `n`. */
  lemma {:induction false} ProductDown(n: nat, s: real)
    requires 0.1 <= s <= 1.0
    ensures 0.1 * n as real <= Product(n, s) <= n as real
  {
    if n > 0 {
      ProductDown(n - 1, s);
    }
  }

  /**
   * Scaling up never shrinks a dimension and at most doubles it; scaling
   * down never grows it and keeps at least a tenth of it, rounded down.
   */
  lemma ScaledBounds(n: nat, scale: real)
    ensures scale >= 1.0 ==> n <= Scaled(n, scale) <= 2 * n
    ensures scale <= 1.0 ==> Scaled(n, scale) <= n && n <= 10 * Scaled(n, scale) + 9
  {
    var s := ClampScale(scale);
    var t := Scaled(n, scale);
    if scale >= 1.0 {
      ProductUp(n, s);
    }
    if scale <= 1.0 {
      ProductDown(n, s);
      assert n as real < 10.0 * (t as real + 1.0);
    }
  }

  /**
   * At the ends of the clamp range and at 1 the scaled size is exact: a
   * scale of 2 or more doubles a dimension, a scale of exactly 1 keeps it,
   * and a scale of 0.1 or less keeps a tenth of it, rounded down.
   */
  lemma ScaledAtLimits(n: nat, scale: real)
    ensures scale >= 2.0 ==> Scaled(n, scale) == 2 * n
    ensures scale == 1.0 ==> Scaled(n, scale) == n
    ensures scale <= 0.1 ==> 10 * Scaled(n, scale) <= n < 10 * Scaled(n, scale) + 10
  {
    ProductIsMultiplication(n, ClampScale(scale));
    if scale <= 0.1 {
      var t := Scaled(n, scale);
      assert t as real <= n as real * 0.1 < t as real + 1.0;
    }
  }
}
