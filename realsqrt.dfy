/**
 * The square root that the numeric code takes from numpy (`np.sqrt`).
 *
 * Dafny has no real square root, so every operation that needs one takes it
 * as a parameter `sqrt` and requires `IsSqrt(sqrt)`: on non-negative
 * arguments it returns the non-negative root.  The lemmas below show that
 * this pins the value down completely, so a result computed with any such
 * `sqrt` is the one the source computes over the reals.
 */
module RealSqrt {

  /** `sqrt` is the principal square root on the non-negative reals. */
  ghost predicate IsSqrt(sqrt: real -> real) {
    forall x: real :: 0.0 <= x ==> 0.0 <= sqrt(x) && sqrt(x) * sqrt(x) == x
  }

  /** Two non-negative reals with the same square are equal. */
  lemma SquareInjective(a: real, b: real)
    requires 0.0 <= a && 0.0 <= b
    requires a * a == b * b
    ensures a == b
  {
    if a < b {
      SquareStrictlyMonotonic(a, b);
    } else if b < a {
      SquareStrictlyMonotonic(b, a);
    }
  }

  /** Squaring is strictly increasing on the non-negative reals. */
  lemma SquareStrictlyMonotonic(a: real, b: real)
    requires 0.0 <= a < b
    ensures a * a < b * b
  {
    MulPositive(b - a, b + a);
    assert b * b - a * a == (b - a) * (b + a);
  }

  lemma MulPositive(p: real, q: real)
    requires 0.0 < p && 0.0 < q
    ensures 0.0 < p * q
  {
  }

  /** Any two square-root functions agree on every non-negative argument. */
  lemma SqrtUnique(f: real -> real, g: real -> real, x: real)
    requires IsSqrt(f) && IsSqrt(g)
    requires 0.0 <= x
    ensures f(x) == g(x)
  {
    SquareInjective(f(x), g(x));
  }

  /** The root is zero exactly at zero. */
  lemma SqrtZeroIff(sqrt: real -> real, x: real)
    requires IsSqrt(sqrt)
    requires 0.0 <= x
    ensures sqrt(x) == 0.0 <==> x == 0.0
  {
    var r := sqrt(x);
    assert 0.0 <= r && r * r == x;
    if 0.0 < r {
      SquareStrictlyMonotonic(0.0, r);
    }
  }

  /** Python's `abs` on a float. */
  function Abs(a: real): (r: real)
    ensures 0.0 <= r && (r == a || r == -a)
  {
    if a < 0.0 then -a else a
  }
}
