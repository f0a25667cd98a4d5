/**
 The numbers the application works with, as JavaScript produces them from a form
 field with the unary `+`: a finite value, one of the two infinities, or NaN.
 Finite values are exact reals; floating-point rounding and the sign of zero are
 not modelled.
 */
module Numbers {

  datatype Num = Finite(value: real) | PosInfinity | NegInfinity | NaN

  /** `Number.isFinite(x)`. */
  predicate IsFinite(x: Num) {
    x.Finite?
  }

  /** `x > 0` under JavaScript's comparison: NaN compares false and
      +Infinity lies above every finite number. */
  predicate IsPositive(x: Num) {
    match x
    case Finite(v) => v > 0.0
    case PosInfinity => true
    case NegInfinity => false
    case NaN => false
  }

  /** `a / b` on two finite numbers: a division by zero yields an infinity
      carrying the sign of `a`, or NaN for `0 / 0`. */
  function Divide(a: real, b: real): (q: Num)
    ensures q.Finite? <==> b != 0.0
    ensures q == PosInfinity <==> b == 0.0 && a > 0.0
    ensures q == NegInfinity <==> b == 0.0 && a < 0.0
    ensures q == NaN <==> b == 0.0 && a == 0.0
  {
    if b != 0.0 then Finite(a / b)
    else if a > 0.0 then PosInfinity
    else if a < 0.0 then NegInfinity
    else NaN
  }

  /** A finite quotient times the divisor gives back the dividend. */
  lemma DivideInverts(a: real, b: real)
    requires b != 0.0
    ensures Divide(a, b).value * b == a
  {
  }
}
