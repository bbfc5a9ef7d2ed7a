/**
 * `UncertaintyValue` of irh.verification.uncertainty: a value with an
 * uncertainty and a provenance string, combined by `+` and `*` either with
 * another UncertaintyValue (errors propagated in quadrature) or with a
 * plain number.  Values are immutable; every operation builds a new one.
 */
module Uncertainty {
  import opened Wrappers
  import opened RealSqrt
  import opened RealArith

  datatype UncertaintyValue = UncertaintyValue(value: real, uncertainty: real, source: string)

  /** The right operand of `+` and `*`: another UncertaintyValue or a float. */
  datatype Operand = Measured(v: UncertaintyValue) | Number(k: real)

  /** Python's error for a float divided by zero. */
  const DivisionByZero := "float division by zero"

  /** The provenance of a combination of two values. */
  function Combined(s1: string, s2: string): (r: string)
    ensures |r| == |s1| + |s2| + 12
    ensures r[..9] == "Combined(" && r[|r| - 1] == ')'
    ensures r[9..9 + |s1|] == s1 && r[9 + |s1|..11 + |s1|] == ", " && r[11 + |s1|..|r| - 1] == s2
  {
    "Combined(" + s1 + ", " + s2 + ")"
  }

  /**
   * `__add__`: for two values the values add and the uncertainties add in
   * quadrature (the result's uncertainty is the non-negative root of
   * u1^2 + u2^2); a plain number only shifts the value.
   */
  function Add(a: UncertaintyValue, other: Operand, sqrt: real -> real): (r: UncertaintyValue)
    requires IsSqrt(sqrt)
    ensures other.Measured? ==>
      && r.value == a.value + other.v.value
      && 0.0 <= r.uncertainty
      && Sq(r.uncertainty) == Sq(a.uncertainty) + Sq(other.v.uncertainty)
      && r.source == Combined(a.source, other.v.source)
    ensures other.Number? ==> r == a.(value := a.value + other.k)
  {
    match other
    case Measured(b) =>
      SqSign(a.uncertainty);
      SqSign(b.uncertainty);
      var newVal := a.value + b.value;
      var newUnc := sqrt(Sq(a.uncertainty) + Sq(b.uncertainty));
      UncertaintyValue(newVal, newUnc, Combined(a.source, b.source))
    case Number(k) =>
      UncertaintyValue(a.value + k, a.uncertainty, a.source)
  }

  /**
   * `__mul__`: for two values the values multiply and the relative
   * uncertainties add in quadrature; either value being zero makes the
   * relative uncertainty a division by zero, which Python raises for
   * float operands (numpy scalars give nan instead, not modelled here).
   * A plain number k scales the value by k and the uncertainty by |k|.
   */
  function Mul(a: UncertaintyValue, other: Operand, sqrt: real -> real): (r: Result<UncertaintyValue, string>)
    requires IsSqrt(sqrt)
    ensures r.Failure? <==> other.Measured? && (a.value == 0.0 || other.v.value == 0.0)
    ensures r.Failure? ==> r.error == DivisionByZero
    ensures r.Success? && other.Measured? ==>
      && r.value.value == a.value * other.v.value
      && r.value.source == Combined(a.source, other.v.source)
    ensures other.Number? ==>
      r == Success(UncertaintyValue(a.value * other.k, a.uncertainty * Abs(other.k), a.source))
  {
    if other.Number? then
      Success(UncertaintyValue(a.value * other.k, a.uncertainty * Abs(other.k), a.source))
    else
      var b := other.v;
      if a.value == 0.0 || b.value == 0.0 then
        Failure(DivisionByZero)
      else
        var newVal := a.value * b.value;
        var s := Sq(a.uncertainty / a.value) + Sq(b.uncertainty / b.value);
        SqSign(a.uncertainty / a.value);
        SqSign(b.uncertainty / b.value);
        var relUnc := sqrt(s);
        var newUnc := Abs(newVal) * relUnc;
        Success(UncertaintyValue(newVal, newUnc, Combined(a.source, b.source)))
  }

  lemma MulNonNegative(a: real, b: real)
    requires 0.0 <= a && 0.0 <= b
    ensures 0.0 <= a * b
  {
    if 0.0 < a && 0.0 < b {
      assert 0.0 < a * b;
    }
  }

  lemma SqAbs(a: real)
    ensures Sq(Abs(a)) == Sq(a)
  {
  }

  /** (v1 v2)^2 ((u1/v1)^2 + (u2/v2)^2) == (u1 v2)^2 + (u2 v1)^2. */
  lemma RelativeToAbsolute(v1: real, v2: real, u1: real, u2: real)
    requires v1 != 0.0 && v2 != 0.0
    ensures Sq(v1 * v2) * (Sq(u1 / v1) + Sq(u2 / v2)) == Sq(u1 * v2) + Sq(u2 * v1)
  {
    DivMul(u1, v1);
    DivMul(u2, v2);
    var r1, r2 := u1 / v1, u2 / v2;
    assert Sq(u1 * v2) == Sq(r1 * v1 * v2);
    assert Sq(u2 * v1) == Sq(r2 * v2 * v1);
  }

  /**
   * The product's uncertainty is the non-negative root of
   * (u1 v2)^2 + (u2 v1)^2: relative errors added in quadrature are the
   * absolute errors of the two factors, each weighted by the other value.
   */
  lemma MulUncertainty(a: UncertaintyValue, b: UncertaintyValue, sqrt: real -> real)
    requires IsSqrt(sqrt)
    requires a.value != 0.0 && b.value != 0.0
    ensures Mul(a, Measured(b), sqrt).Success?
    ensures 0.0 <= Mul(a, Measured(b), sqrt).value.uncertainty
    ensures Sq(Mul(a, Measured(b), sqrt).value.uncertainty)
         == Sq(a.uncertainty * b.value) + Sq(b.uncertainty * a.value)
  {
    var r := Mul(a, Measured(b), sqrt);
    assert r.value.uncertainty
        == Abs(a.value * b.value) * sqrt(Sq(a.uncertainty / a.value) + Sq(b.uncertainty / b.value));
    ProductUncertainty(a.value, b.value, a.uncertainty, b.uncertainty, sqrt, r.value.uncertainty);
  }

  /** The arithmetic of MulUncertainty, on plain reals. */
  lemma ProductUncertainty(v1: real, v2: real, u1: real, u2: real, sqrt: real -> real, r: real)
    requires IsSqrt(sqrt)
    requires v1 != 0.0 && v2 != 0.0
    requires r == Abs(v1 * v2) * sqrt(Sq(u1 / v1) + Sq(u2 / v2))
    ensures 0.0 <= r
    ensures Sq(r) == Sq(u1 * v2) + Sq(u2 * v1)
  {
    var p, s := v1 * v2, Sq(u1 / v1) + Sq(u2 / v2);
    SqSign(u1 / v1);
    SqSign(u2 / v2);
    var rel := sqrt(s);
    assert 0.0 <= rel && rel * rel == s;
    MulNonNegative(Abs(p), rel);
    SqMul(Abs(p), rel);
    SqAbs(p);
    assert Sq(rel) == s;
    RelativeToAbsolute(v1, v2, u1, u2);
  }

  /** Two values combine to the same value and uncertainty in either order. */
  lemma AddCommutes(a: UncertaintyValue, b: UncertaintyValue, sqrt: real -> real)
    requires IsSqrt(sqrt)
    ensures Add(a, Measured(b), sqrt).value == Add(b, Measured(a), sqrt).value
    ensures Add(a, Measured(b), sqrt).uncertainty == Add(b, Measured(a), sqrt).uncertainty
  {
    assert Sq(a.uncertainty) + Sq(b.uncertainty) == Sq(b.uncertainty) + Sq(a.uncertainty);
  }

  /** Adding the number 0 or multiplying by the number 1 changes nothing. */
  lemma NumberIdentities(a: UncertaintyValue, sqrt: real -> real)
    requires IsSqrt(sqrt)
    ensures Add(a, Number(0.0), sqrt) == a
    ensures Mul(a, Number(1.0), sqrt) == Success(a)
  {
    TimesOne(a.value, 1.0);
    TimesOne(a.uncertainty, Abs(1.0));
  }

  /**
   * The propagation test: 10 ± 1 plus 20 ± 2 is 30 with uncertainty
   * sqrt(5), and their product is 200 with uncertainty sqrt(800), about 28.28.
   */
  lemma PropagationExample(sqrt: real -> real)
    requires IsSqrt(sqrt)
    ensures var u1, u2 := UncertaintyValue(10.0, 1.0, "SourceA"), UncertaintyValue(20.0, 2.0, "SourceB");
      && Add(u1, Measured(u2), sqrt).value == 30.0
      && Sq(Add(u1, Measured(u2), sqrt).uncertainty) == 5.0
      && Mul(u1, Measured(u2), sqrt).Success?
      && Mul(u1, Measured(u2), sqrt).value.value == 200.0
      && Sq(Mul(u1, Measured(u2), sqrt).value.uncertainty) == 800.0
  {
    var u1, u2 := UncertaintyValue(10.0, 1.0, "SourceA"), UncertaintyValue(20.0, 2.0, "SourceB");
    MulUncertainty(u1, u2, sqrt);
  }

  lemma TimesOne(x: real, y: real)
    requires y == 1.0
    ensures x * y == x
  {
  }
}
