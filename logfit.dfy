/** The log-domain fits: the exponential fit regresses ln y on x shifted by
    its minimum, the power fit regresses ln y on ln x; both report r² of the
    log-domain correlation. */
module LogFit {
  import opened Sums
  import opened Numerics
  import opened Stats
  import opened Correlation
  import opened Scans
  import opened Outcomes

  /** x[i] - c for every i: the engine's `shiftedX` when c is minX. */
  function Shift(x: seq<real>, c: real): (s: seq<real>)
    ensures |s| == |x|
  {
    seq(|x|, i requires 0 <= i < |x| => x[i] - c)
  }

  /** ln s[i] for every i: the engine's `lnX` and `lnY`. */
  function Logs(s: seq<real>, ln: real -> real): (r: seq<real>)
    ensures |r| == |s|
  {
    seq(|s|, i requires 0 <= i < |s| => ln(s[i]))
  }

  /** Shifting by the minimum leaves every value non-negative and at least
      one value zero. */
  lemma ShiftedFromMin(x: seq<real>)
    requires 0 < |x|
    ensures forall i :: 0 <= i < |x| ==> Shift(x, MinOf(x))[i] >= 0.0
    ensures exists i :: 0 <= i < |x| && Shift(x, MinOf(x))[i] == 0.0
  {
    MinOfIsMinimum(x);
    var j :| 0 <= j < |x| && x[j] == MinOf(x);
    assert Shift(x, MinOf(x))[j] == 0.0;
  }

  // ---------------------------------------------------------------------
  // Shifting x does not change the slope

  /** Σ (x[i] - c) = Σx - k·c. */
  lemma {:induction false} SumShift(x: seq<real>, c: real, k: nat)
    requires k <= |x|
    ensures SumTo(Shift(x, c), k) == SumTo(x, k) - (k as real) * c
  {
    if k > 0 {
      SumShift(x, c, k - 1);
    }
  }

  lemma MeanShift(x: seq<real>, c: real)
    requires 0 < |x|
    ensures Mean(Shift(x, c)) == Mean(x) - c
  {
    var n := |x|;
    SumShift(x, c, n);
    MeanTimesCount(x, n);
    MeanTimesCount(Shift(x, c), n);
    ShiftedMean(n as real, Mean(x), Mean(Shift(x, c)), c, SumTo(x, n), SumTo(Shift(x, c), n));
  }

  lemma ShiftedMean(n: real, m: real, ms: real, c: real, s: real, ss: real)
    requires n > 0.0 && n * m == s && n * ms == ss && ss == s - n * c
    ensures ms == m - c
  {
    assert n * ms == n * (m - c);
  }

  /** Deviations from shifted centres are the deviations before the shift. */
  lemma {:induction false} DevShift(a: seq<real>, b: seq<real>, a2: seq<real>, b2: seq<real>,
                                    c: real, e: real, ma: real, mb: real, ma2: real, mb2: real, k: nat)
    requires k <= |a| && k <= |b| && k <= |a2| && k <= |b2| && ma2 == ma - c && mb2 == mb - e
    requires forall i :: 0 <= i < k ==> a2[i] == a[i] - c && b2[i] == b[i] - e
    ensures DevTo(a2, b2, ma2, mb2, k) == DevTo(a, b, ma, mb, k)
  {
    if k > 0 {
      DevShift(a, b, a2, b2, c, e, ma, mb, ma2, mb2, k - 1);
      assert Moved(a2[k - 1], a[k - 1], c) == 0.0 && Moved(b2[k - 1], b[k - 1], e) == 0.0;
      DevShiftStep(a, b, a2, b2, c, e, ma, mb, ma2, mb2, k);
    }
  }

  lemma DevShiftStep(a: seq<real>, b: seq<real>, a2: seq<real>, b2: seq<real>,
                     c: real, e: real, ma: real, mb: real, ma2: real, mb2: real, k: nat)
    requires 0 < k <= |a| && k <= |b| && k <= |a2| && k <= |b2|
    requires Moved(ma2, ma, c) == 0.0 && Moved(mb2, mb, e) == 0.0
    requires Moved(a2[k - 1], a[k - 1], c) == 0.0 && Moved(b2[k - 1], b[k - 1], e) == 0.0
    requires DevTo(a2, b2, ma2, mb2, k - 1) == DevTo(a, b, ma, mb, k - 1)
    ensures DevTo(a2, b2, ma2, mb2, k) == DevTo(a, b, ma, mb, k)
  {
    ShiftTerm(a[k - 1], b[k - 1], a2[k - 1], b2[k - 1], c, e, ma, mb, ma2, mb2);
  }

  /** How far x2 is from x - c. */
  function Moved(x2: real, x: real, c: real): real
  {
    x2 - (x - c)
  }

  lemma ShiftTerm(ai: real, bi: real, a2i: real, b2i: real, c: real, e: real, ma: real, mb: real,
                  ma2: real, mb2: real)
    requires Moved(a2i, ai, c) == 0.0 && Moved(b2i, bi, e) == 0.0
    requires Moved(ma2, ma, c) == 0.0 && Moved(mb2, mb, e) == 0.0
    ensures (a2i - ma2) * (b2i - mb2) == (ai - ma) * (bi - mb)
  {
    assert a2i - ma2 == ai - ma;
    assert b2i - mb2 == bi - mb;
  }

  /** Shifting x by any c keeps both termX and the correlation numerator. */
  lemma ShiftKeepsSpreads(x: seq<real>, v: seq<real>, c: real)
    requires 0 < |x| == |v|
    ensures Spread(Shift(x, c)) == Spread(x)
    ensures CoSpread(Shift(x, c), v) == CoSpread(x, v)
  {
    CentredShift(x, v, c);
    CentredForms(x, v);
    CentredForms(Shift(x, c), v);
  }

  /** Shifting x by any c leaves Pearson's r of x and v unchanged: the
      exponential fit's r² is that of x itself against ln y. */
  lemma ShiftKeepsPearson(x: seq<real>, v: seq<real>, c: real, sqrt: real -> real)
    requires 0 < |x| == |v| && IsSqrt(sqrt)
    ensures PearsonOf(Shift(x, c), v, sqrt) == PearsonOf(x, v, sqrt)
  {
    ShiftKeepsSpreads(x, v, c);
  }

  /** The deviations from the mean do not see the shift. */
  lemma CentredShift(x: seq<real>, v: seq<real>, c: real)
    requires 0 < |x| == |v|
    ensures CentredDot(Shift(x, c), v) == CentredDot(x, v)
    ensures CentredDot(Shift(x, c), Shift(x, c)) == CentredDot(x, x)
  {
    MeanShift(x, c);
    assert Mean(v) - 0.0 == Mean(v);
    DevShift(x, v, Shift(x, c), v, c, 0.0, Mean(x), Mean(v), Mean(Shift(x, c)), Mean(v), |x|);
    DevShift(x, x, Shift(x, c), Shift(x, c), c, c, Mean(x), Mean(x), Mean(Shift(x, c)), Mean(Shift(x, c)), |x|);
  }

  // ---------------------------------------------------------------------
  // r² in the log domain

  /** rLn² from the engine's three numbers, reported only when
      termX·termLnY > 0, with rLn = numeratorLn / √(termX·termLnY). */
  function R2From(numerator: real, termX: real, termY: real, sqrt: real -> real): Option<real>
    requires IsSqrt(sqrt)
  {
    var den := termX * termY;
    if den > 0.0 then
      SqrtPositive(sqrt, den);
      var r := numerator / sqrt(den);
      Some(r * r)
    else None
  }

  /** The engine's rLn, squared, is the r² R2From describes. */
  lemma R2Steps(numerator: real, termX: real, termY: real, sqrt: real -> real, rLn: real)
    requires IsSqrt(sqrt) && termX * termY > 0.0 && rLn == numerator / sqrt(termX * termY)
    ensures R2From(numerator, termX, termY, sqrt) == Some(rLn * rLn)
  {
    var r2 := R2From(numerator, termX, termY, sqrt);
    assert r2.Some? && r2.value == rLn * rLn;
  }

  /** The log-domain r² of the transformed samples u and v. */
  function LogR2(u: seq<real>, v: seq<real>, sqrt: real -> real): Option<real>
    requires |u| == |v| && IsSqrt(sqrt)
  {
    R2From(CoSpread(u, v), Spread(u), Spread(v), sqrt)
  }

  /** Over non-negative terms with numerator² <= termX·termY, the r² line
      appears exactly when r is defined, and shows r², in [0, 1]. */
  lemma R2FromIsPearsonSquared(numerator: real, termX: real, termY: real, sqrt: real -> real)
    requires IsSqrt(sqrt) && termX >= 0.0 && termY >= 0.0 && Slack(numerator, termX, termY) >= 0.0
    ensures R2From(numerator, termX, termY, sqrt).Some? <==> PearsonFrom(numerator, termX, termY, sqrt).Defined?
    ensures R2From(numerator, termX, termY, sqrt).Some? ==>
      R2From(numerator, termX, termY, sqrt).value == Sq(PearsonFrom(numerator, termX, termY, sqrt).r) &&
      0.0 <= R2From(numerator, termX, termY, sqrt).value <= 1.0
  {
    MulNonNegative(termX, termY, termX * termY);
    if PearsonFrom(numerator, termX, termY, sqrt).Defined? {
      PearsonFromRange(numerator, termX, termY, sqrt);
      UnitBound(PearsonFrom(numerator, termX, termY, sqrt).r);
    }
  }

  /** The log-domain r² is reported exactly when Pearson's r of the
      transformed samples is defined; it is then that r squared, in [0, 1]. */
  lemma LogR2IsPearsonSquared(u: seq<real>, v: seq<real>, sqrt: real -> real)
    requires |u| == |v| && IsSqrt(sqrt)
    ensures LogR2(u, v, sqrt).Some? <==> PearsonOf(u, v, sqrt).Defined?
    ensures LogR2(u, v, sqrt).Some? ==>
      LogR2(u, v, sqrt).value == Sq(PearsonOf(u, v, sqrt).r) &&
      0.0 <= LogR2(u, v, sqrt).value <= 1.0
  {
    SpreadNonNegative(u);
    SpreadNonNegative(v);
    CoSpreadBound(u, v);
    R2FromIsPearsonSquared(CoSpread(u, v), Spread(u), Spread(v), sqrt);
  }

  lemma UnitBound(r: real)
    requires -1.0 <= r <= 1.0
    ensures 0.0 <= r * r <= 1.0
  {
    if r >= 0.0 {
      MulNonNegative(r, 1.0 - r, r * (1.0 - r));
    } else {
      MulNonNegative(-r, 1.0 + r, -r * (1.0 + r));
    }
    SqNonNegative(r);
  }
}
