/** The double-precision values that the metrics compute with, reduced to what
    the metrics observe: an exact real, the two infinities, and not-a-number.
    Rounding and overflow are not modelled; every finite value is exact. */
module Floats {

  datatype Float = Finite(r: real) | PosInf | NegInf | NaN

  /** numpy's isinf: true of both infinities, false of NaN. */
  predicate IsInf(x: Float): (b: bool)
    ensures b <==> !x.Finite? && !x.NaN?
  {
    x.PosInf? || x.NegInf?
  }

  /** numpy's isnan. */
  predicate IsNaN(x: Float): (b: bool)
    ensures b <==> !x.Finite? && !IsInf(x)
  {
    x.NaN?
  }

  /** The comparison `x <= 0`: false whenever x is NaN. */
  predicate AtMostZero(x: Float): (b: bool)
    ensures x.NaN? ==> !b
    ensures x.Finite? ==> (b <==> x.r <= 0.0)
    ensures IsInf(x) ==> (b <==> x.NegInf?)
  {
    match x
    case Finite(v) => v <= 0.0
    case NegInf => true
    case PosInf => false
    case NaN => false
  }

  /** The sign of a non-zero real as an infinity. */
  function InfinityOfSign(positive: bool): Float {
    if positive then PosInf else NegInf
  }

  /** Product of a value and a finite factor: an infinity times zero is NaN,
      an infinity times a non-zero factor is the infinity of the product's sign. */
  function Mul(x: Float, y: real): (z: Float)
    ensures z.Finite? <==> x.Finite?
    ensures z.Finite? ==> z.r == x.r * y
    ensures z.NaN? <==> x.NaN? || (IsInf(x) && y == 0.0)
    ensures z.PosInf? <==> (x.PosInf? && y > 0.0) || (x.NegInf? && y < 0.0)
  {
    match x
    case Finite(v) => Finite(v * y)
    case NaN => NaN
    case PosInf => if y == 0.0 then NaN else InfinityOfSign(y > 0.0)
    case NegInf => if y == 0.0 then NaN else InfinityOfSign(y < 0.0)
  }

  /** Difference of a value and a finite number: infinities and NaN absorb it. */
  function SubReal(x: Float, y: real): (z: Float)
    ensures z.Finite? <==> x.Finite?
    ensures z.Finite? ==> z.r + y == x.r
    ensures !x.Finite? ==> z == x
  {
    match x
    case Finite(v) => Finite(v - y)
    case _ => x
  }

  /** The square of a real. */
  function Squared(v: real): real {
    v * v
  }

  /** A square is never negative, and is zero only for zero. */
  lemma SquaredSign(v: real)
    ensures Squared(v) >= 0.0
    ensures Squared(v) == 0.0 <==> v == 0.0
  {
    if v > 0.0 {
      calc { Squared(v); v * v; > { assert v * v > 0.0; } 0.0; }
    } else if v < 0.0 {
      calc { Squared(v); v * v; > { assert v * v > 0.0; } 0.0; }
    } else {
      calc { Squared(v); v * v; == 0.0; }
    }
  }

  /** `x ** 2.0`: the square of a finite value, +inf for either infinity. */
  function Square(x: Float): (z: Float)
    ensures z.Finite? ==> z.r >= 0.0
    ensures !z.NegInf?
  {
    match x
    case Finite(v) => SquaredSign(v); Finite(Squared(v))
    case NaN => NaN
    case _ => PosInf
  }

  /** IEEE addition: NaN if either operand is NaN or the infinities cancel. */
  function Add(x: Float, y: Float): (z: Float)
    ensures z.Finite? <==> x.Finite? && y.Finite?
    ensures z.Finite? ==> z.r == x.r + y.r
    ensures z.NaN? <==> x.NaN? || y.NaN? || (IsInf(x) && IsInf(y) && x != y)
    ensures z.PosInf? <==> !z.NaN? && (x.PosInf? || y.PosInf?)
    ensures z.NegInf? <==> !z.NaN? && (x.NegInf? || y.NegInf?)
  {
    if x.NaN? || y.NaN? then NaN
    else if (x.PosInf? && y.NegInf?) || (x.NegInf? && y.PosInf?) then NaN
    else if x.PosInf? || y.PosInf? then PosInf
    else if x.NegInf? || y.NegInf? then NegInf
    else Finite(x.r + y.r)
  }

  /** Division by a positive count. */
  function DivideBy(x: Float, n: nat): (z: Float)
    requires n > 0
    ensures z.Finite? <==> x.Finite?
    ensures z.Finite? ==> (z.r >= 0.0 <==> x.r >= 0.0)
    ensures !x.Finite? ==> z == x
  {
    match x
    case Finite(v) => Finite(v / n as real)
    case _ => x
  }

  /** A function on the reals that returns the non-negative square root of
      every non-negative argument; `root` stands for the math library's. */
  ghost predicate IsSqrt(root: real -> real) {
    forall x: real :: 0.0 <= x ==> 0.0 <= root(x) && Squared(root(x)) == x
  }

  /** numpy's sqrt: NaN for a negative argument (and for -inf and NaN),
      +inf for +inf, `root` of a non-negative finite argument. */
  function Sqrt(x: Float, root: real -> real): (z: Float)
    ensures z.NaN? <==> x.NaN? || x.NegInf? || (x.Finite? && x.r < 0.0)
    ensures z.PosInf? <==> x.PosInf?
    ensures !z.NegInf?
    ensures IsSqrt(root) && x.Finite? && x.r >= 0.0 ==> z.Finite? && z.r >= 0.0 && Squared(z.r) == x.r
  {
    match x
    case Finite(v) => if v < 0.0 then NaN else Finite(root(v))
    case PosInf => PosInf
    case _ => NaN
  }
}
