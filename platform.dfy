/**
 * The parts of the JavaScript `Math` object the core calls. Nothing here
 * gives `sin`, `cos` or `sqrt` a definition: they are carried as
 * function-valued fields, so every result proved below holds for ANY
 * implementation that respects the stated ranges and identities.
 */
module Platform {

  /** A value in [-1, 1]: what `Math.sin` and `Math.cos` return. */
  type Unit = r: real | -1.0 <= r <= 1.0

  /** A value in [0, 1): what `Math.random` returns. */
  type Fraction = r: real | 0.0 <= r < 1.0

  /** `Math.random` as called inside the per-frame loop: `draws(i, k)` is the
      k-th value drawn while sword `i` is processed. */
  type Draws = (nat, nat) -> Fraction

  /** `Math.PI` as an IEEE-754 double. */
  const PI: real := 3.141592653589793

  datatype MathLib = MathLib(sin: real -> Unit, cos: real -> Unit, sqrt: real -> real)

  /** `sqrt` is the non-negative square root on non-negative arguments. */
  ghost predicate IsSqrt(sqrt: real -> real)
  {
    forall x: real :: 0.0 <= x ==> 0.0 <= sqrt(x) && sqrt(x) * sqrt(x) == x
  }

  /** sin and cos lie on the unit circle. */
  ghost predicate Pythagorean(m: MathLib)
  {
    forall a: real :: m.sin(a) * m.sin(a) + m.cos(a) * m.cos(a) == 1.0
  }

  /** Under IsSqrt, comparing a root with a non-negative bound is comparing
      the radicand with the bound's square. */
  lemma SqrtExceeds(sqrt: real -> real, x: real, b: real)
    requires IsSqrt(sqrt)
    requires 0.0 <= x && 0.0 <= b
    ensures sqrt(x) > b <==> x > b * b
  {
    var s := sqrt(x);
    assert 0.0 <= s && s * s == x;
    if s > b {
      DifferenceOfSquares(s, b);
      PositiveProduct(s - b, s + b);
    } else {
      DifferenceOfSquares(b, s);
      NonNegativeProduct(b - s, b + s);
    }
  }

  lemma DifferenceOfSquares(a: real, b: real)
    ensures a * a - b * b == (a - b) * (a + b)
  {
  }

  lemma PositiveProduct(a: real, b: real)
    requires 0.0 < a && 0.0 < b
    ensures a * b > 0.0
  {
  }

  lemma NonNegativeProduct(a: real, b: real)
    requires 0.0 <= a && 0.0 <= b
    ensures a * b >= 0.0
  {
  }
}
