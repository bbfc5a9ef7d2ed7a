/**
 * Sign facts about real squares.  `Sq` is Python's `a**2`; its sign is
 * recorded through the predicates `Positive` and `NonNegative`, which let
 * the solver carry the fact across function applications.
 */
module RealArith {

  predicate Positive(x: real) {
    0.0 < x
  }

  predicate NonNegative(x: real) {
    !(x < 0.0)
  }

  /** `a**2`. */
  function Sq(a: real): real {
    a * a
  }

  /** A square is never negative, and positive unless its base is zero. */
  lemma SquareSign(a: real)
    ensures NonNegative(a * a)
    ensures a != 0.0 ==> Positive(a * a)
  {
    if 0.0 < a {
      assert 0.0 * a < a * a;
    } else if a < 0.0 {
      assert a * 0.0 < a * a;
    }
  }

  /** `Sq(a)` is non-negative, and zero exactly when `a` is. */
  lemma SqSign(a: real)
    ensures NonNegative(Sq(a))
    ensures a != 0.0 ==> Positive(Sq(a))
    ensures Sq(a) == 0.0 <==> a == 0.0
  {
    SquareSign(a);
  }

  /** Squaring is multiplicative. */
  lemma SqMul(a: real, b: real)
    ensures Sq(a * b) == Sq(a) * Sq(b)
  {
  }

  /** Division undone by multiplication. */
  lemma DivMul(a: real, n: real)
    requires n != 0.0
    ensures (a / n) * n == a
  {
  }

  /** A factor that leaves a non-zero real unchanged is one. */
  lemma CancelNonzero(s: real, m: real)
    requires m != 0.0 && s * m == m
    ensures s == 1.0
  {
  }
}
