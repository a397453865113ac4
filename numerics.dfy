/** The parts of Go's `math` package that the engine calls and this model
    does not define: square root, natural logarithm, exponential and
    rounding. They are passed in as a record of functions; the square root
    carries its law here (IsSqrt), rounding in Format (IsRound), and the
    logarithm and exponential are left free. */
module Numerics {
  import opened Sums

  /** math.Sqrt, math.Log, math.Exp and math.Round, supplied by the caller. */
  datatype MathFns = MathFns(sqrt: real -> real, ln: real -> real, exp: real -> real, round: real -> real)

  /** The law math.Sqrt obeys on the reals: the non-negative square root. */
  ghost predicate IsSqrt(sqrt: real -> real)
  {
    forall d :: 0.0 <= d ==> 0.0 <= sqrt(d) && Sq(sqrt(d)) == d
  }

  /** math.Abs. */
  function Abs(a: real): real
  {
    if a < 0.0 then -a else a
  }

  /** The square root of a positive number is positive. */
  lemma SqrtPositive(sqrt: real -> real, d: real)
    requires IsSqrt(sqrt) && d > 0.0
    ensures sqrt(d) > 0.0
  {
    assert Sq(sqrt(d)) == d;
  }

  /** The square root of zero is zero. */
  lemma SqrtZero(sqrt: real -> real)
    requires IsSqrt(sqrt)
    ensures sqrt(0.0) == 0.0
  {
    if sqrt(0.0) != 0.0 {
      SqPositive(sqrt(0.0));
    }
  }
}
