/** Pearson's r as the engine computes it from the spread terms, and the
    sign and strength labels it prints about r. */
module Correlation {
  import opened Sums
  import opened Numerics
  import opened Stats

  datatype Pearson = Undefined | Defined(r: real)

  /** r = numerator / √(termX·termY) from the three numbers the engine keeps,
      undefined when termX·termY is zero. Both terms are spreads, hence never
      negative (Stats.SpreadNonNegative). */
  function PearsonFrom(numerator: real, termX: real, termY: real, sqrt: real -> real): Pearson
    requires IsSqrt(sqrt) && termX >= 0.0 && termY >= 0.0
  {
    var den := termX * termY;
    if den != 0.0 then
      MulNonNegative(termX, termY, den);
      SqrtPositive(sqrt, den);
      Defined(numerator / sqrt(den))
    else
      Undefined
  }

  /** Pearson's r of the paired samples u and v. */
  function PearsonOf(u: seq<real>, v: seq<real>, sqrt: real -> real): Pearson
    requires |u| == |v| && IsSqrt(sqrt)
  {
    SpreadNonNegative(u);
    SpreadNonNegative(v);
    PearsonFrom(CoSpread(u, v), Spread(u), Spread(v), sqrt)
  }

  /** r is undefined exactly when the x values or the y values are all equal. */
  lemma UndefinedIffConstant(u: seq<real>, v: seq<real>, sqrt: real -> real)
    requires |u| == |v| > 0 && IsSqrt(sqrt)
    ensures PearsonOf(u, v, sqrt).Undefined? <==> AllEqual(u) || AllEqual(v)
  {
    SpreadZeroIffAllEqual(u);
    SpreadZeroIffAllEqual(v);
    SpreadNonNegative(u);
    SpreadNonNegative(v);
    ProductZero(Spread(u), Spread(v));
  }

  lemma ProductZero(a: real, b: real)
    requires a >= 0.0 && b >= 0.0
    ensures a * b == 0.0 <==> a == 0.0 || b == 0.0
  {
    if a > 0.0 && b > 0.0 {
      MulPositive(a, b, a * b);
    }
  }

  /** A defined r lies in [-1, 1] when numerator² <= termX·termY, has the sign
      of the numerator, and has |r| = 1 exactly when numerator² = termX·termY. */
  lemma PearsonFromRange(numerator: real, termX: real, termY: real, sqrt: real -> real)
    requires IsSqrt(sqrt) && termX >= 0.0 && termY >= 0.0
    requires Slack(numerator, termX, termY) >= 0.0
    requires PearsonFrom(numerator, termX, termY, sqrt).Defined?
    ensures -1.0 <= PearsonFrom(numerator, termX, termY, sqrt).r <= 1.0
    ensures PearsonFrom(numerator, termX, termY, sqrt).r > 0.0 <==> numerator > 0.0
    ensures PearsonFrom(numerator, termX, termY, sqrt).r < 0.0 <==> numerator < 0.0
    ensures Abs(PearsonFrom(numerator, termX, termY, sqrt).r) == 1.0 <==> Slack(numerator, termX, termY) == 0.0
  {
    var den := termX * termY;
    MulNonNegative(termX, termY, den);
    SqrtPositive(sqrt, den);
    RatioFacts(numerator, sqrt(den), termX, termY, PearsonFrom(numerator, termX, termY, sqrt).r);
  }

  /** For samples, numerator² <= termX·termY always holds (Cauchy–Schwarz),
      so a defined r is in [-1, 1] with the sign of the numerator. */
  lemma PearsonRange(u: seq<real>, v: seq<real>, sqrt: real -> real)
    requires |u| == |v| && IsSqrt(sqrt) && PearsonOf(u, v, sqrt).Defined?
    ensures -1.0 <= PearsonOf(u, v, sqrt).r <= 1.0
    ensures PearsonOf(u, v, sqrt).r > 0.0 <==> CoSpread(u, v) > 0.0
    ensures PearsonOf(u, v, sqrt).r < 0.0 <==> CoSpread(u, v) < 0.0
    ensures Abs(PearsonOf(u, v, sqrt).r) == 1.0 <==> Slack(CoSpread(u, v), Spread(u), Spread(v)) == 0.0
  {
    SpreadNonNegative(u);
    SpreadNonNegative(v);
    CoSpreadBound(u, v);
    PearsonFromRange(CoSpread(u, v), Spread(u), Spread(v), sqrt);
  }

  lemma RatioFacts(num: real, s: real, a: real, b: real, r: real)
    requires s > 0.0 && Sq(s) == a * b && r == num / s && Slack(num, a, b) >= 0.0
    ensures -1.0 <= r <= 1.0
    ensures r > 0.0 <==> num > 0.0
    ensures r < 0.0 <==> num < 0.0
    ensures Abs(r) == 1.0 <==> Slack(num, a, b) == 0.0
  {
    assert num == r * s;
    assert Sq(num) == Sq(r) * Sq(s);
    SqNonNegative(r);
    SqPositive(s);
    if r > 0.0 { MulPositive(r, s, num); }
    if r < 0.0 { MulPositive(-r, s, -num); }
    if Sq(r) > 1.0 {
      MulStrict(Sq(s), Sq(r), 1.0);
      assert false;
    }
    UnitSquare(r);
    if Sq(num) == a * b {
      assert Sq(r) * Sq(s) == 1.0 * Sq(s);
      CancelPositive(Sq(s), Sq(r), 1.0);
    }
  }

  lemma MulStrict(k: real, a: real, b: real)
    requires k > 0.0 && a > b
    ensures k * a > k * b
  {
    MulPositive(k, a - b, k * (a - b));
  }

  lemma CancelPositive(k: real, a: real, b: real)
    requires k > 0.0 && a * k == b * k
    ensures a == b
  {
    if a > b { MulStrict(k, a, b); }
    if a < b { MulStrict(k, b, a); }
  }

  /** r² <= 1 bounds r to [-1, 1], with |r| = 1 exactly when r² = 1. */
  lemma UnitSquare(r: real)
    requires Sq(r) <= 1.0
    ensures -1.0 <= r <= 1.0
    ensures Abs(r) == 1.0 <==> Sq(r) == 1.0
  {
    if r > 1.0 {
      MulStrict(r, r, 1.0);
    }
    if r < -1.0 {
      MulStrict(-r, -r, 1.0);
    }
    var a := Abs(r);
    assert Sq(a) == Sq(r);
    if a < 1.0 {
      SqNonNegative(a);
      MulStrict(1.0 - a, 1.0, a);
      MulNonNegative(a, 1.0 - a, a * (1.0 - a));
    }
  }

  // ---------------------------------------------------------------------
  // Labels

  datatype Sign = Positive | Negative | NoSign

  /** "The correlation is positive / negative", else "no pos/neg correlation". */
  function SignOf(r: real): (s: Sign)
    ensures s == Positive <==> r > 0.0
    ensures s == Negative <==> r < 0.0
    ensures s == NoSign <==> r == 0.0
  {
    if r > 0.0 then Positive else if r < 0.0 then Negative else NoSign
  }

  datatype Strength = Perfect | Strong | Moderate | Weak | NoSpectrum

  /** The strength label, tried in order: perfect, strong, moderate, weak. */
  function StrengthOf(r: real): Strength
  {
    var a := Abs(r);
    if a == 1.0 then Perfect
    else if a >= 0.7 then Strong
    else if a >= 0.5 then Moderate
    else if a >= 0.3 then Weak
    else NoSpectrum
  }

  /** For an r in [-1, 1] the strength labels are disjoint bands of |r|, each
      inclusive at its lower bound, and "strong" stops short of 1. */
  lemma StrengthBands(r: real)
    requires -1.0 <= r <= 1.0
    ensures StrengthOf(r) == Perfect <==> Abs(r) == 1.0
    ensures StrengthOf(r) == Strong <==> 0.7 <= Abs(r) < 1.0
    ensures StrengthOf(r) == Moderate <==> 0.5 <= Abs(r) < 0.7
    ensures StrengthOf(r) == Weak <==> 0.3 <= Abs(r) < 0.5
    ensures StrengthOf(r) == NoSpectrum <==> Abs(r) < 0.3
  {
  }

  /** The labels depend on r only through its sign and its magnitude: negating
      r swaps the sign label and keeps the strength. */
  lemma LabelsSymmetric(r: real)
    ensures StrengthOf(-r) == StrengthOf(r)
    ensures SignOf(-r) == (match SignOf(r) case Positive => Negative case Negative => Positive case NoSign => NoSign)
  {
  }
}
