/**
 * Quaternions q = w + xi + yj + zk over the reals, as the `Quaternion`
 * dataclass of irh.core.v22.quaternion.  Every operation returns a new value;
 * none updates a field, so the model is a datatype with functions.
 */
module Quaternions {
  import opened Wrappers
  import opened RealSqrt
  import opened RealArith

  datatype Quaternion = Quaternion(w: real, x: real, y: real, z: real)

  /** What the source raises: ZeroDivisionError with its message, or IndexError. */
  datatype MathError = ZeroDivision(message: string) | IndexError

  const Zero := Quaternion(0.0, 0.0, 0.0, 0.0)
  const One := Quaternion(1.0, 0.0, 0.0, 0.0)
  const I := Quaternion(0.0, 1.0, 0.0, 0.0)
  const J := Quaternion(0.0, 0.0, 1.0, 0.0)
  const K := Quaternion(0.0, 0.0, 0.0, 1.0)

  /** `__mul__`: the Hamilton product (non-commutative), one component at a time. */
  function Mul(p: Quaternion, q: Quaternion): Quaternion {
    Quaternion(MulW(p, q), MulX(p, q), MulY(p, q), MulZ(p, q))
  }

  function MulW(p: Quaternion, q: Quaternion): real {
    p.w * q.w - p.x * q.x - p.y * q.y - p.z * q.z
  }

  function MulX(p: Quaternion, q: Quaternion): real {
    p.w * q.x + p.x * q.w + p.y * q.z - p.z * q.y
  }

  function MulY(p: Quaternion, q: Quaternion): real {
    p.w * q.y - p.x * q.z + p.y * q.w + p.z * q.x
  }

  function MulZ(p: Quaternion, q: Quaternion): real {
    p.w * q.z + p.x * q.y - p.y * q.x + p.z * q.w
  }

  /** `__add__`: componentwise sum. */
  function Add(p: Quaternion, q: Quaternion): Quaternion {
    Quaternion(p.w + q.w, p.x + q.x, p.y + q.y, p.z + q.z)
  }

  /** `__sub__`: componentwise difference. */
  function Sub(p: Quaternion, q: Quaternion): Quaternion {
    Quaternion(p.w - q.w, p.x - q.x, p.y - q.y, p.z - q.z)
  }

  /** `conjugate`: keeps the real part, negates the vector part. */
  function Conjugate(q: Quaternion): Quaternion {
    Quaternion(q.w, -q.x, -q.y, -q.z)
  }

  /** `norm_sq`: the sum of the squared components (see NormSqZero for its sign). */
  function NormSq(q: Quaternion): real {
    Sq(q.w) + Sq(q.x) + Sq(q.y) + Sq(q.z)
  }

  /** `norm`: the square root of `norm_sq`, zero exactly for the zero quaternion. */
  function Norm(q: Quaternion, sqrt: real -> real): (r: real)
    requires IsSqrt(sqrt)
    ensures 0.0 <= r && r * r == NormSq(q)
    ensures r == 0.0 <==> q == Zero
  {
    NormSqZero(q);
    SqrtZeroIff(sqrt, NormSq(q));
    sqrt(NormSq(q))
  }

  /** Multiplication of every component by one real. */
  function Scale(q: Quaternion, c: real): Quaternion {
    Quaternion(c * q.w, c * q.x, c * q.y, c * q.z)
  }

  /**
   * `inverse`: the conjugate divided componentwise by `norm_sq`; it raises
   * ZeroDivisionError exactly for the zero quaternion (InverseIsTwoSided
   * states what the result is otherwise).
   */
  function Inverse(q: Quaternion): (r: Result<Quaternion, MathError>)
    ensures r.Failure? <==> q == Zero
    ensures r.Failure? ==> r.error == ZeroDivision("Cannot invert zero quaternion")
  {
    var nSq := NormSq(q);
    NormSqZero(q);
    if nSq == 0.0 then
      Failure(ZeroDivision("Cannot invert zero quaternion"))
    else
      var conj := Conjugate(q);
      Success(Quaternion(conj.w / nSq, conj.x / nSq, conj.y / nSq, conj.z / nSq))
  }

  /**
   * `normalize`: every component divided by `norm`; it raises
   * ZeroDivisionError exactly for the zero quaternion (NormalizeIsUnit
   * states what the result is otherwise).
   */
  function Normalize(q: Quaternion, sqrt: real -> real): (r: Result<Quaternion, MathError>)
    requires IsSqrt(sqrt)
    ensures r.Failure? <==> q == Zero
    ensures r.Failure? ==> r.error == ZeroDivision("Cannot normalize zero quaternion")
  {
    var n := Norm(q, sqrt);
    if n == 0.0 then
      Failure(ZeroDivision("Cannot normalize zero quaternion"))
    else
      Success(Quaternion(q.w / n, q.x / n, q.y / n, q.z / n))
  }

  /** `to_numpy`: the four components in the order w, x, y, z. */
  function ToArray(q: Quaternion): seq<real> {
    [q.w, q.x, q.y, q.z]
  }

  /** `from_numpy`: the first four entries; IndexError when there are fewer. */
  function FromArray(arr: seq<real>): (r: Result<Quaternion, MathError>)
    ensures r.Failure? <==> |arr| < 4
    ensures r.Success? ==> ToArray(r.value) == arr[..4]
  {
    if |arr| < 4 then Failure(IndexError) else Success(Quaternion(arr[0], arr[1], arr[2], arr[3]))
  }

  // ---------------------------------------------------------------------
  // Arithmetic helpers (Z3 needs the sign facts about squares spelled out)
  // ---------------------------------------------------------------------

  /** `norm_sq` is non-negative and zero exactly for the zero quaternion. */
  lemma NormSqZero(q: Quaternion)
    ensures 0.0 <= NormSq(q)
    ensures NormSq(q) == 0.0 <==> q == Zero
  {
    SqSign(q.w);
    SqSign(q.x);
    SqSign(q.y);
    SqSign(q.z);
  }

  /** q * conj(q) == conj(q) * q == norm_sq(q). */
  lemma MulConjugate(q: Quaternion)
    ensures Mul(q, Conjugate(q)) == Quaternion(NormSq(q), 0.0, 0.0, 0.0)
    ensures Mul(Conjugate(q), q) == Quaternion(NormSq(q), 0.0, 0.0, 0.0)
  {
  }

  /** Each component of p * (c q) is c times that of p * q. */
  lemma ScaleRightComponents(p: Quaternion, q: Quaternion, c: real)
    ensures MulW(p, Scale(q, c)) == c * MulW(p, q) && MulX(p, Scale(q, c)) == c * MulX(p, q)
    ensures MulY(p, Scale(q, c)) == c * MulY(p, q) && MulZ(p, Scale(q, c)) == c * MulZ(p, q)
  {
  }

  /** Each component of (c p) * q is c times that of p * q. */
  lemma ScaleLeftComponents(p: Quaternion, q: Quaternion, c: real)
    ensures MulW(Scale(p, c), q) == c * MulW(p, q) && MulX(Scale(p, c), q) == c * MulX(p, q)
    ensures MulY(Scale(p, c), q) == c * MulY(p, q) && MulZ(Scale(p, c), q) == c * MulZ(p, q)
  {
  }

  /** Scaling the right factor scales the product. */
  lemma MulScaleRight(p: Quaternion, q: Quaternion, c: real)
    ensures Mul(p, Scale(q, c)) == Scale(Mul(p, q), c)
  {
    ScaleRightComponents(p, q, c);
    var s, m := Scale(q, c), Mul(p, q);
    assert m == Quaternion(MulW(p, q), MulX(p, q), MulY(p, q), MulZ(p, q));
    assert Mul(p, s) == Quaternion(MulW(p, s), MulX(p, s), MulY(p, s), MulZ(p, s));
    assert Scale(m, c) == Quaternion(c * MulW(p, q), c * MulX(p, q), c * MulY(p, q), c * MulZ(p, q));
  }

  /** Scaling the left factor scales the product. */
  lemma MulScaleLeft(p: Quaternion, q: Quaternion, c: real)
    ensures Mul(Scale(p, c), q) == Scale(Mul(p, q), c)
  {
    ScaleLeftComponents(p, q, c);
    var s, m := Scale(p, c), Mul(p, q);
    assert m == Quaternion(MulW(p, q), MulX(p, q), MulY(p, q), MulZ(p, q));
    assert Mul(s, q) == Quaternion(MulW(s, q), MulX(s, q), MulY(s, q), MulZ(s, q));
    assert Scale(m, c) == Quaternion(c * MulW(p, q), c * MulX(p, q), c * MulY(p, q), c * MulZ(p, q));
  }

  lemma Reciprocal(n: real)
    requires n != 0.0
    ensures (1.0 / n) * n == 1.0
  {
  }

  /** conj(q) / norm_sq(q) is a two-sided inverse of a non-zero q. */
  lemma InverseIsInverse(q: Quaternion)
    requires NormSq(q) != 0.0
    ensures Mul(q, Scale(Conjugate(q), 1.0 / NormSq(q))) == One
    ensures Mul(Scale(Conjugate(q), 1.0 / NormSq(q)), q) == One
  {
    var n := NormSq(q);
    MulConjugate(q);
    MulScaleRight(q, Conjugate(q), 1.0 / n);
    MulScaleLeft(Conjugate(q), q, 1.0 / n);
    Reciprocal(n);
  }

  /** Dividing every component by `n` divides `norm_sq` by `n**2`. */
  lemma DivNormSq(q: Quaternion, n: real)
    requires n != 0.0
    ensures NormSq(Quaternion(q.w / n, q.x / n, q.y / n, q.z / n)) * Sq(n) == NormSq(q)
  {
    var u := Quaternion(q.w / n, q.x / n, q.y / n, q.z / n);
    DivMul(q.w, n);
    DivMul(q.x, n);
    DivMul(q.y, n);
    DivMul(q.z, n);
    SqMul(u.w, n);
    SqMul(u.x, n);
    SqMul(u.y, n);
    SqMul(u.z, n);
    Distribute(Sq(u.w), Sq(u.x), Sq(u.y), Sq(u.z), Sq(n));
  }

  lemma Distribute(a: real, b: real, c: real, d: real, m: real)
    ensures (a + b + c + d) * m == a * m + b * m + c * m + d * m
  {
  }

  /** Division by `n` is scaling by `1 / n`. */
  lemma DivIsScale(q: Quaternion, n: real)
    requires n != 0.0
    ensures Quaternion(q.w / n, q.x / n, q.y / n, q.z / n) == Scale(q, 1.0 / n)
  {
    DivAsProduct(q.w, n);
    DivAsProduct(q.x, n);
    DivAsProduct(q.y, n);
    DivAsProduct(q.z, n);
  }

  lemma DivAsProduct(a: real, n: real)
    requires n != 0.0
    ensures a / n == (1.0 / n) * a
  {
  }

  /** `inverse` of a non-zero quaternion is a two-sided multiplicative inverse. */
  lemma InverseIsTwoSided(q: Quaternion)
    requires q != Zero
    ensures Inverse(q).Success?
    ensures Mul(q, Inverse(q).value) == One && Mul(Inverse(q).value, q) == One
  {
    NormSqZero(q);
    DivIsScale(Conjugate(q), NormSq(q));
    InverseIsInverse(q);
  }

  /** `normalize` of a non-zero quaternion is the unit quaternion q / norm(q). */
  lemma NormalizeIsUnit(q: Quaternion, sqrt: real -> real)
    requires IsSqrt(sqrt)
    requires q != Zero
    ensures Normalize(q, sqrt).Success?
    ensures NormSq(Normalize(q, sqrt).value) == 1.0
    ensures Normalize(q, sqrt).value == Scale(q, 1.0 / Norm(q, sqrt))
  {
    var n := Norm(q, sqrt);
    DivNormSq(q, n);
    SqSign(n);
    CancelNonzero(NormSq(Quaternion(q.w / n, q.x / n, q.y / n, q.z / n)), Sq(n));
    DivIsScale(q, n);
  }

  // ---------------------------------------------------------------------
  // Properties the source and its tests state
  // ---------------------------------------------------------------------

  /** The basis products i*j = k, j*i = -k, i*i = -1: multiplication is not commutative. */
  lemma BasisProducts()
    ensures Mul(I, J) == K
    ensures Mul(J, I) == Quaternion(0.0, 0.0, 0.0, -1.0)
    ensures Mul(I, I) == Quaternion(-1.0, 0.0, 0.0, 0.0)
    ensures Mul(I, J) != Mul(J, I)
  {
  }

  /** (p + q) - q == p, and addition is commutative. */
  lemma AddSubCancel(p: Quaternion, q: Quaternion)
    ensures Sub(Add(p, q), q) == p
    ensures Add(p, q) == Add(q, p)
  {
  }

  /** Conjugation is an involution and reverses products. */
  lemma ConjugateInvolution(p: Quaternion, q: Quaternion)
    ensures Conjugate(Conjugate(q)) == q
    ensures Conjugate(Mul(p, q)) == Mul(Conjugate(q), Conjugate(p))
  {
  }

  /** The norm is multiplicative (Euler's four-square identity). */
  lemma NormSqMultiplicative(p: Quaternion, q: Quaternion)
    ensures NormSq(Mul(p, q)) == NormSq(p) * NormSq(q)
  {
    var m := Mul(p, q);
    assert m == Quaternion(MulW(p, q), MulX(p, q), MulY(p, q), MulZ(p, q));
    FourSquares(p.w, p.x, p.y, p.z, q.w, q.x, q.y, q.z, MulW(p, q), MulX(p, q), MulY(p, q), MulZ(p, q));
  }

  /** Euler's four-square identity, for the components s of a product. */
  lemma FourSquares(a0: real, a1: real, a2: real, a3: real, b0: real, b1: real, b2: real, b3: real,
                    s0: real, s1: real, s2: real, s3: real)
    requires s0 == a0 * b0 - a1 * b1 - a2 * b2 - a3 * b3
    requires s1 == a0 * b1 + a1 * b0 + a2 * b3 - a3 * b2
    requires s2 == a0 * b2 - a1 * b3 + a2 * b0 + a3 * b1
    requires s3 == a0 * b3 + a1 * b2 - a2 * b1 + a3 * b0
    ensures Sq(s0) + Sq(s1) + Sq(s2) + Sq(s3) == (Sq(a0) + Sq(a1) + Sq(a2) + Sq(a3)) * (Sq(b0) + Sq(b1) + Sq(b2) + Sq(b3))
  {
    FourSquaresExpanded(a0, a1, a2, a3, b0, b1, b2, b3);
  }

  lemma FourSquaresExpanded(a0: real, a1: real, a2: real, a3: real, b0: real, b1: real, b2: real, b3: real)
    ensures Sq(a0 * b0 - a1 * b1 - a2 * b2 - a3 * b3)
          + Sq(a0 * b1 + a1 * b0 + a2 * b3 - a3 * b2)
          + Sq(a0 * b2 - a1 * b3 + a2 * b0 + a3 * b1)
          + Sq(a0 * b3 + a1 * b2 - a2 * b1 + a3 * b0)
         == (Sq(a0) + Sq(a1) + Sq(a2) + Sq(a3)) * (Sq(b0) + Sq(b1) + Sq(b2) + Sq(b3))
  {
  }

  /** from_numpy(to_numpy(q)) == q, and to_numpy(from_numpy(a)) is a's first four entries. */
  lemma ArrayRoundTrip(q: Quaternion, arr: seq<real>)
    ensures FromArray(ToArray(q)) == Success(q)
    ensures |arr| >= 4 ==> FromArray(arr).Success? && ToArray(FromArray(arr).value) == arr[..4]
  {
  }
}
