/**
 * `compute_qncd` of irh.core.v22.qncd: the distance between two quaternionic
 * states, one minus the fidelity (squared inner product) of their
 * normalisations, clipped to [0, 1].  The zero quaternion cannot be
 * normalised and is at distance 1 from everything.
 *
 * `ComputeQncd` follows the code step by step (normalise both through `sqrt`,
 * dot product, square, subtract, clip).  `SqrtFreeQncd` is the same value
 * written without square roots, 1 - dot(q1, q2)^2 / (|q1|^2 |q2|^2), and
 * QncdClosedForm proves the two equal; the behavioural lemmas are proved for
 * the source's function through it.
 */
module Qncd {
  import opened Wrappers
  import opened RealSqrt
  import opened RealArith
  import opened Quaternions

  /** The Euclidean inner product in R^4 (`dot_product`). */
  function Dot(p: Quaternion, q: Quaternion): real {
    p.w * q.w + p.x * q.x + p.y * q.y + p.z * q.z
  }

  /** `np.clip(x, lo, hi)`. */
  function Clip(x: real, lo: real, hi: real): (r: real)
    requires lo <= hi
    ensures lo <= r <= hi
    ensures lo <= x <= hi ==> r == x
  {
    if x < lo then lo else if hi < x then hi else x
  }

  /** `compute_qncd`, as written. */
  function ComputeQncd(q1: Quaternion, q2: Quaternion, sqrt: real -> real): (d: real)
    requires IsSqrt(sqrt)
    ensures 0.0 <= d <= 1.0
    ensures q1 == Zero || q2 == Zero ==> d == 1.0
  {
    var n1 := Normalize(q1, sqrt);
    var n2 := Normalize(q2, sqrt);
    if n1.Failure? || n2.Failure? then
      1.0
    else
      var dotProduct := Dot(n1.value, n2.value);
      var fidelity := Sq(dotProduct);
      Clip(1.0 - fidelity, 0.0, 1.0)
  }

  /** The same distance over the reals, without square roots or clipping. */
  function SqrtFreeQncd(q1: Quaternion, q2: Quaternion): real {
    if q1 == Zero || q2 == Zero then 1.0 else 1.0 - Fidelity(q1, q2)
  }

  /** The fidelity of the normalised states, dot(q1, q2)^2 / (|q1|^2 |q2|^2). */
  function Fidelity(q1: Quaternion, q2: Quaternion): real
    requires q1 != Zero && q2 != Zero
  {
    NormSqProductPositive(q1, q2);
    Sq(Dot(q1, q2)) / (NormSq(q1) * NormSq(q2))
  }

  // ---------------------------------------------------------------------
  // Cauchy-Schwarz: the fidelity of two non-zero states lies in [0, 1]
  // ---------------------------------------------------------------------

  lemma LagrangeIdentity(a0: real, a1: real, a2: real, a3: real, b0: real, b1: real, b2: real, b3: real)
    ensures (Sq(a0) + Sq(a1) + Sq(a2) + Sq(a3)) * (Sq(b0) + Sq(b1) + Sq(b2) + Sq(b3))
          - Sq(a0 * b0 + a1 * b1 + a2 * b2 + a3 * b3)
         == Sq(a0 * b1 - a1 * b0) + Sq(a0 * b2 - a2 * b0) + Sq(a0 * b3 - a3 * b0)
          + Sq(a1 * b2 - a2 * b1) + Sq(a1 * b3 - a3 * b1) + Sq(a2 * b3 - a3 * b2)
  {
  }

  /** |p|^2 |q|^2 - dot(p, q)^2 is a sum of six squares. */
  lemma Lagrange(p: Quaternion, q: Quaternion)
    ensures NormSq(p) * NormSq(q) - Sq(Dot(p, q))
         == Sq(p.w * q.x - p.x * q.w) + Sq(p.w * q.y - p.y * q.w) + Sq(p.w * q.z - p.z * q.w)
          + Sq(p.x * q.y - p.y * q.x) + Sq(p.x * q.z - p.z * q.x) + Sq(p.y * q.z - p.z * q.y)
  {
    LagrangeIdentity(p.w, p.x, p.y, p.z, q.w, q.x, q.y, q.z);
    assert Dot(p, q) == p.w * q.w + p.x * q.x + p.y * q.y + p.z * q.z;
    assert NormSq(p) == Sq(p.w) + Sq(p.x) + Sq(p.y) + Sq(p.z);
    assert NormSq(q) == Sq(q.w) + Sq(q.x) + Sq(q.y) + Sq(q.z);
  }

  lemma SixSquares(a: real, b: real, c: real, d: real, e: real, f: real)
    ensures NonNegative(Sq(a) + Sq(b) + Sq(c) + Sq(d) + Sq(e) + Sq(f))
  {
    SqSign(a);
    SqSign(b);
    SqSign(c);
    SqSign(d);
    SqSign(e);
    SqSign(f);
  }

  /** dot(p, q)^2 <= |p|^2 |q|^2. */
  lemma CauchySchwarz(p: Quaternion, q: Quaternion)
    ensures Sq(Dot(p, q)) <= NormSq(p) * NormSq(q)
  {
    Lagrange(p, q);
    SixSquares(p.w * q.x - p.x * q.w, p.w * q.y - p.y * q.w, p.w * q.z - p.z * q.w,
               p.x * q.y - p.y * q.x, p.x * q.z - p.z * q.x, p.y * q.z - p.z * q.y);
  }

  lemma RatioBounds(s: real, m: real)
    requires 0.0 < m
    requires !(s < 0.0) && s <= m
    ensures 0.0 <= s / m <= 1.0
  {
  }

  lemma MulPositive(a: real, b: real)
    requires Positive(a) && Positive(b)
    ensures Positive(a * b)
  {
  }

  lemma NormSqProductPositive(q1: Quaternion, q2: Quaternion)
    requires q1 != Zero && q2 != Zero
    ensures Positive(NormSq(q1) * NormSq(q2))
  {
    NormSqZero(q1);
    NormSqZero(q2);
    MulPositive(NormSq(q1), NormSq(q2));
  }

  /** The fidelity of two non-zero quaternions is a number in [0, 1]. */
  lemma FidelityBounds(q1: Quaternion, q2: Quaternion)
    requires q1 != Zero && q2 != Zero
    ensures 0.0 <= Fidelity(q1, q2) <= 1.0
  {
    NormSqProductPositive(q1, q2);
    CauchySchwarz(q1, q2);
    SqSign(Dot(q1, q2));
    RatioBounds(Sq(Dot(q1, q2)), NormSq(q1) * NormSq(q2));
  }

  // ---------------------------------------------------------------------
  // The source's distance is the square-root-free one
  // ---------------------------------------------------------------------

  lemma DotScale(p: Quaternion, q: Quaternion, c: real, e: real)
    ensures Dot(Scale(p, c), Scale(q, e)) == (c * e) * Dot(p, q)
  {
  }

  lemma InverseSquares(n1: real, n2: real, s: real)
    requires n1 != 0.0 && n2 != 0.0
    ensures Sq((1.0 / n1) * (1.0 / n2)) * s == s / (Sq(n1) * Sq(n2))
  {
  }

  /** The fidelity of the normalised states equals the square-root-free fidelity. */
  lemma NormalizedFidelity(q1: Quaternion, q2: Quaternion, sqrt: real -> real)
    requires IsSqrt(sqrt)
    requires q1 != Zero && q2 != Zero
    ensures Normalize(q1, sqrt).Success? && Normalize(q2, sqrt).Success?
    ensures Sq(Dot(Normalize(q1, sqrt).value, Normalize(q2, sqrt).value)) == Fidelity(q1, q2)
  {
    var n1, n2 := Norm(q1, sqrt), Norm(q2, sqrt);
    NormalizeIsUnit(q1, sqrt);
    NormalizeIsUnit(q2, sqrt);
    var c1, c2 := 1.0 / n1, 1.0 / n2;
    DotScale(q1, q2, c1, c2);
    SqMul(c1 * c2, Dot(q1, q2));
    InverseSquares(n1, n2, Sq(Dot(q1, q2)));
    assert Sq(n1) == NormSq(q1) && Sq(n2) == NormSq(q2);
  }

  /** `compute_qncd` over the reals is `SqrtFreeQncd`; the clip never changes the value. */
  lemma QncdClosedForm(q1: Quaternion, q2: Quaternion, sqrt: real -> real)
    requires IsSqrt(sqrt)
    ensures ComputeQncd(q1, q2, sqrt) == SqrtFreeQncd(q1, q2)
  {
    if q1 != Zero && q2 != Zero {
      NormalizedFidelity(q1, q2, sqrt);
      FidelityBounds(q1, q2);
    }
  }

  // ---------------------------------------------------------------------
  // Properties of the distance
  // ---------------------------------------------------------------------

  /** d(q1, q2) == d(q2, q1). */
  lemma QncdSymmetric(q1: Quaternion, q2: Quaternion, sqrt: real -> real)
    requires IsSqrt(sqrt)
    ensures ComputeQncd(q1, q2, sqrt) == ComputeQncd(q2, q1, sqrt)
  {
    QncdClosedForm(q1, q2, sqrt);
    QncdClosedForm(q2, q1, sqrt);
    if q1 != Zero && q2 != Zero {
      assert Dot(q1, q2) == Dot(q2, q1);
      assert NormSq(q1) * NormSq(q2) == NormSq(q2) * NormSq(q1);
    }
  }

  lemma SelfRatio(m: real)
    requires Positive(m)
    ensures m / m == 1.0
  {
  }

  /** A non-zero state is at distance 0 from itself. */
  lemma QncdSelfZero(q: Quaternion, sqrt: real -> real)
    requires IsSqrt(sqrt)
    requires q != Zero
    ensures ComputeQncd(q, q, sqrt) == 0.0
  {
    QncdClosedForm(q, q, sqrt);
    NormSqZero(q);
    assert Dot(q, q) == NormSq(q);
    NormSqProductPositive(q, q);
    SelfRatio(NormSq(q) * NormSq(q));
  }

  lemma NormSqScale(q: Quaternion, c: real)
    ensures NormSq(Scale(q, c)) == Sq(c) * NormSq(q)
  {
    SqMul(c, q.w);
    SqMul(c, q.x);
    SqMul(c, q.y);
    SqMul(c, q.z);
  }

  /** Scaling by a non-zero factor keeps a quaternion non-zero, and zero zero. */
  lemma ScaleZero(q: Quaternion, c: real)
    requires c != 0.0
    ensures Scale(q, c) == Zero <==> q == Zero
  {
    ZeroProduct(c, q.w);
    ZeroProduct(c, q.x);
    ZeroProduct(c, q.y);
    ZeroProduct(c, q.z);
  }

  lemma ZeroProduct(c: real, a: real)
    requires c != 0.0
    ensures c * a == 0.0 <==> a == 0.0
  {
  }

  /** (k s) / ((k a) b) == s / (a b), with the scaled numerator and factor given as ks and ka. */
  lemma CancelRatio(k: real, s: real, a: real, b: real, ks: real, ka: real)
    requires Positive(k) && Positive(a * b)
    requires ks == k * s && ka == k * a
    ensures ka * b != 0.0
    ensures ks / (ka * b) == s / (a * b)
  {
    assert ka * b == k * (a * b);
  }

  lemma DotScaleLeft(p: Quaternion, q: Quaternion, c: real)
    ensures Dot(Scale(p, c), q) == c * Dot(p, q)
  {
  }

  lemma FidelityScaleInvariant(q1: Quaternion, q2: Quaternion, c: real)
    requires q1 != Zero && q2 != Zero && c != 0.0
    ensures Scale(q1, c) != Zero
    ensures Fidelity(Scale(q1, c), q2) == Fidelity(q1, q2)
  {
    ScaleZero(q1, c);
    var d, d' := Dot(q1, q2), Dot(Scale(q1, c), q2);
    DotScaleLeft(q1, q2, c);
    SqMul(c, d);
    NormSqScale(q1, c);
    SqSign(c);
    NormSqProductPositive(q1, q2);
    CancelRatio(Sq(c), Sq(d), NormSq(q1), NormSq(q2), Sq(d'), NormSq(Scale(q1, c)));
    assert Fidelity(Scale(q1, c), q2) == Sq(d') / (NormSq(Scale(q1, c)) * NormSq(q2));
    assert Fidelity(q1, q2) == Sq(d) / (NormSq(q1) * NormSq(q2));
  }

  /** Scaling either argument by a non-zero factor leaves the distance unchanged. */
  lemma QncdScaleInvariant(q1: Quaternion, q2: Quaternion, c: real, sqrt: real -> real)
    requires IsSqrt(sqrt)
    requires c != 0.0
    ensures ComputeQncd(Scale(q1, c), q2, sqrt) == ComputeQncd(q1, q2, sqrt)
    ensures ComputeQncd(q1, Scale(q2, c), sqrt) == ComputeQncd(q1, q2, sqrt)
  {
    QncdClosedForm(q1, q2, sqrt);
    QncdClosedForm(Scale(q1, c), q2, sqrt);
    ScaleZero(q1, c);
    if q1 != Zero && q2 != Zero {
      FidelityScaleInvariant(q1, q2, c);
    }
    QncdSymmetric(q1, Scale(q2, c), sqrt);
    QncdSymmetric(q1, q2, sqrt);
    QncdClosedForm(Scale(q2, c), q1, sqrt);
    QncdClosedForm(q2, q1, sqrt);
    ScaleZero(q2, c);
    if q1 != Zero && q2 != Zero {
      FidelityScaleInvariant(q2, q1, c);
    }
  }

  /** q and -q are the same state: distance 0 (antipodal points of SU(2)). */
  lemma QncdAntipodalZero(q: Quaternion, sqrt: real -> real)
    requires IsSqrt(sqrt)
    requires q != Zero
    ensures ComputeQncd(q, Scale(q, -1.0), sqrt) == 0.0
  {
    QncdScaleInvariant(q, q, -1.0, sqrt);
    QncdSelfZero(q, sqrt);
  }

  /** Orthogonal non-zero states are at the maximal distance 1. */
  lemma QncdOrthogonal(q1: Quaternion, q2: Quaternion, sqrt: real -> real)
    requires IsSqrt(sqrt)
    requires q1 != Zero && q2 != Zero && Dot(q1, q2) == 0.0
    ensures ComputeQncd(q1, q2, sqrt) == 1.0
  {
    QncdClosedForm(q1, q2, sqrt);
    FidelityOrthogonal(q1, q2);
  }

  lemma FidelityOrthogonal(q1: Quaternion, q2: Quaternion)
    requires q1 != Zero && q2 != Zero && Dot(q1, q2) == 0.0
    ensures Fidelity(q1, q2) == 0.0
  {
    SqSign(Dot(q1, q2));
    NormSqProductPositive(q1, q2);
    ZeroRatio(NormSq(q1) * NormSq(q2));
  }

  lemma ZeroRatio(m: real)
    requires Positive(m)
    ensures 0.0 / m == 0.0
  {
  }

  /** Unit-norm q1 against q2 with |q2|^2 = 2 and dot 1: fidelity 1/2. */
  lemma FidelityHalf(q1: Quaternion, q2: Quaternion)
    requires Dot(q1, q2) == 1.0 && NormSq(q1) == 1.0 && NormSq(q2) == 2.0
    ensures q1 != Zero && q2 != Zero
    ensures Fidelity(q1, q2) == 0.5
  {
    NormSqZero(q1);
    NormSqZero(q2);
  }

  /** Any such pair is at distance 1/2. */
  lemma QncdHalf(q1: Quaternion, q2: Quaternion, sqrt: real -> real)
    requires IsSqrt(sqrt)
    requires Dot(q1, q2) == 1.0 && NormSq(q1) == 1.0 && NormSq(q2) == 2.0
    ensures ComputeQncd(q1, q2, sqrt) == 0.5
  {
    QncdClosedForm(q1, q2, sqrt);
    FidelityHalf(q1, q2);
  }

  lemma ExampleDot()
    ensures Dot(One, Quaternion(1.0, 1.0, 0.0, 0.0)) == 1.0
  {
  }

  lemma ExampleNormOne()
    ensures NormSq(One) == 1.0
  {
  }

  lemma ExampleNormTwo()
    ensures NormSq(Quaternion(1.0, 1.0, 0.0, 0.0)) == 2.0
  {
  }

  /** (1,0,0,0) against (1,1,0,0): distance 1/2. */
  lemma QncdIntermediate(sqrt: real -> real)
    requires IsSqrt(sqrt)
    ensures ComputeQncd(One, Quaternion(1.0, 1.0, 0.0, 0.0), sqrt) == 0.5
  {
    ExampleDot();
    ExampleNormOne();
    ExampleNormTwo();
    QncdHalf(One, Quaternion(1.0, 1.0, 0.0, 0.0), sqrt);
  }
}
