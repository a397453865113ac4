/** What the report states about the samples, read off Report.ReportOf:
    the inputs it refuses, where the table, the totals and the correlation
    lines sit, and what the outlier lines and each trendline section say. */
module Properties {
  import opened Sums
  import opened Numerics
  import opened Stats
  import opened Correlation
  import opened Outliers
  import opened Fit
  import opened Quadratic
  import opened LogFit
  import opened Scans
  import opened Format
  import opened Outcomes
  import opened Report

  // ---------------------------------------------------------------------
  // The order of the parts

  /** A text made of five parts in a row holds each part at its place. */
  lemma Parts(rep: seq<Section>, a: seq<Section>, b: seq<Section>, c: seq<Section>, d: seq<Section>, e: seq<Section>)
    requires rep == a + b + c + d + e
    ensures rep[..|a| + |b|] == a + b
    ensures rep[|a| + |b|..|a| + |b| + |c|] == c
    ensures rep[|a| + |b| + |c|..|a| + |b| + |c| + |d|] == d
    ensures rep[|rep| - |e|..] == e
  {
    assert rep == (a + b) + c + d + e;
  }

  /** Where each part sits in the report of accepted input: the table and
      the totals first, then the correlation sections, the sections about y,
      and the trendline section of the requested type at the end; an
      unknown type gets the straight line. */
  lemma ReportParts(x: seq<real>, y: seq<real>, regressionType: string, useRounding: bool, m: MathFns,
                    rep: seq<Section>)
    requires IsSqrt(m.sqrt) && ReportOf(x, y, regressionType, useRounding, m) == Ok(rep)
    ensures |x| == |y| > 0
    ensures var fmt := FloatFormat(useRounding, m.round);
      var c := CorrelationSections(PearsonOf(x, y, m.sqrt));
      var ys := YSections(x, y, fmt, m.sqrt);
      var t := TrendSections(KindOf(regressionType), x, y, fmt, m);
      |rep| == |x| + 2 + |c| + |ys| + |t| &&
      rep[..|x| + 2] == TableOf(x, y, fmt) + TotalsOf(x, y, fmt) &&
      rep[|x| + 2..|x| + 2 + |c|] == c &&
      rep[|x| + 2 + |c|..|x| + 2 + |c| + |ys|] == ys &&
      rep[|rep| - |t|..] == t
    ensures regressionType !in {"quadratic", "exponential", "power"} ==>
      var fmt := FloatFormat(useRounding, m.round);
      rep[|rep| - |TrendSections(LinearKind, x, y, fmt, m)|..] == TrendSections(LinearKind, x, y, fmt, m)
  {
    var fmt := FloatFormat(useRounding, m.round);
    assert rep == TableOf(x, y, fmt) + TotalsOf(x, y, fmt) + CorrelationSections(PearsonOf(x, y, m.sqrt)) +
                  YSections(x, y, fmt, m.sqrt) + TrendSections(KindOf(regressionType), x, y, fmt, m);
    Parts(rep, TableOf(x, y, fmt), TotalsOf(x, y, fmt), CorrelationSections(PearsonOf(x, y, m.sqrt)),
          YSections(x, y, fmt, m.sqrt), TrendSections(KindOf(regressionType), x, y, fmt, m));
  }

  // ---------------------------------------------------------------------
  // The table and the totals

  /** The table opens with the header and one row per sample, numbered from
      one, in input order; the totals line follows with Σx, Σy, Σx², Σy²,
      Σxy and n. */
  lemma TableLines(x: seq<real>, y: seq<real>, fmt: FloatFormat)
    requires |x| == |y|
    ensures var t := TableOf(x, y, fmt) + TotalsOf(x, y, fmt);
      |t| == |x| + 2 && t[0] == TableHeader &&
      (forall i :: 0 <= i < |x| ==> t[i + 1] == RowOf(x, y, i, fmt)) &&
      t[|x| + 1] == Totals(Displayed(SumTo(x, |x|), fmt), Displayed(SumTo(y, |x|), fmt),
                           Displayed(DotTo(x, x, |x|), fmt), Displayed(DotTo(y, y, |x|), fmt),
                           Displayed(DotTo(x, y, |x|), fmt), |x|)
  {
    var t := TableOf(x, y, fmt) + TotalsOf(x, y, fmt);
    assert t == [TableHeader] + RowsTo(x, y, |x|, fmt) + TotalsOf(x, y, fmt);
    forall i | 0 <= i < |x|
      ensures t[i + 1] == RowOf(x, y, i, fmt)
    {
      RowsToAt(x, y, |x|, fmt, i);
    }
  }

  // ---------------------------------------------------------------------
  // Correlation

  /** "r is undefined" exactly when the x values or the y values are all
      equal; otherwise r in [-1, 1], r², the sign label (positive exactly
      when the co-spread is, negative exactly when it is negative) and the
      strength label, which is "perfect" exactly when the Cauchy–Schwarz
      bound is tight; LineIsPerfect shows that samples on a line reach it. */
  lemma CorrelationLines(x: seq<real>, y: seq<real>, sqrt: real -> real)
    requires |x| == |y| > 0 && IsSqrt(sqrt)
    ensures var c := CorrelationSections(PearsonOf(x, y, sqrt));
      |c| > 0 &&
      (c == [RUndefined] <==> AllEqual(x) || AllEqual(y)) &&
      (c != [RUndefined] ==>
        |c| == 4 && c[0].RValue? && -1.0 <= c[0].r <= 1.0 &&
        c[1] == RSquared(c[0].r * c[0].r) &&
        c[2] == SignLine(SignOf(c[0].r)) &&
        (SignOf(c[0].r) == Positive <==> CoSpread(x, y) > 0.0) &&
        (SignOf(c[0].r) == Negative <==> CoSpread(x, y) < 0.0) &&
        c[3] == StrengthLine(StrengthOf(c[0].r)) &&
        (StrengthOf(c[0].r) == Perfect <==> Slack(CoSpread(x, y), Spread(x), Spread(y)) == 0.0))
  {
    var p := PearsonOf(x, y, sqrt);
    UndefinedIffConstant(x, y, sqrt);
    if p.Defined? {
      PearsonRange(x, y, sqrt);
      StrengthBands(p.r);
    }
  }

  /** Samples lying exactly on a line y = a·x + b with a ≠ 0 and x not
      constant have r = 1 (a > 0) or r = -1 (a < 0): the correlation is
      perfect, and its sign is the sign of a. */
  lemma LineIsPerfect(x: seq<real>, y: seq<real>, a: real, b: real, sqrt: real -> real)
    requires |x| == |y| > 0 && IsSqrt(sqrt) && !AllEqual(x) && a != 0.0
    requires forall i :: 0 <= i < |x| ==> y[i] == a * x[i] + b
    ensures PearsonOf(x, y, sqrt).Defined?
    ensures PearsonOf(x, y, sqrt).r == (if a > 0.0 then 1.0 else -1.0)
    ensures StrengthOf(PearsonOf(x, y, sqrt).r) == Perfect
    ensures SignOf(PearsonOf(x, y, sqrt).r) == (if a > 0.0 then Positive else Negative)
  {
    CoSpreadOfLine(x, y, a, b);
    SpreadOfLine(x, y, a, b);
    SpreadNonNegative(x);
    SpreadZeroIffAllEqual(x);
    LineSpreads(Spread(x), CoSpread(x, y), Spread(y), a);
    SpreadZeroIffAllEqual(y);
    UndefinedIffConstant(x, y, sqrt);
    PearsonRange(x, y, sqrt);
  }

  /** x = 1, 2, 3 and y = 2, 4, 6 give r = 1: a positive, perfect
      correlation. */
  lemma PerfectExample(sqrt: real -> real)
    requires IsSqrt(sqrt)
    ensures CorrelationSections(PearsonOf([1.0, 2.0, 3.0], [2.0, 4.0, 6.0], sqrt)) ==
      [RValue(1.0), RSquared(1.0), SignLine(Positive), StrengthLine(Perfect)]
  {
    var x, y := [1.0, 2.0, 3.0], [2.0, 4.0, 6.0];
    assert x[0] != x[1];
    LineIsPerfect(x, y, 2.0, 0.0, sqrt);
  }

  /** With termX > 0, numerator = a·termX and termY = a·numerator: termY is
      positive, the numerator has the sign of a, and numerator² = termX·termY. */
  lemma LineSpreads(tx: real, num: real, ty: real, a: real)
    requires tx > 0.0 && a != 0.0 && Scaled(num, a, tx) && Scaled(ty, a, num)
    ensures ty > 0.0
    ensures num > 0.0 <==> a > 0.0
    ensures num < 0.0 <==> a < 0.0
    ensures Slack(num, tx, ty) == 0.0
  {
    if a > 0.0 {
      MulPositive(a, tx, num);
      MulPositive(a, num, ty);
    } else {
      MulPositive(-a, tx, -num);
      MulPositive(-a, -num, ty);
    }
  }

  // ---------------------------------------------------------------------
  // Mean, deviation and outliers of y

  /** The lines about y open with the mean and standard deviation, then
      "no outliers" exactly when there are none, which is always so for a
      constant y. */
  lemma YStatsLines(x: seq<real>, y: seq<real>, fmt: FloatFormat, sqrt: real -> real)
    requires |x| == |y| > 0 && IsSqrt(sqrt)
    ensures var s := YSections(x, y, fmt, sqrt);
      |s| >= 2 && s[0] == YStats(Displayed(Mean(y), fmt), Displayed(StdDev(y, sqrt), fmt)) &&
      (s[1] == NoOutliers <==> OutliersOf(y, sqrt) == []) &&
      (AllEqual(y) ==> s[1] == NoOutliers)
  {
    if AllEqual(y) {
      ConstantHasNoOutliers(y, sqrt);
    }
  }

  /** When there are outliers, a header follows and then one line per
      outlier in the order Outliers.OutliersOf lists them (ascending,
      Outliers.OutliersExact), naming the index and its x and y. */
  lemma OutlierLines(x: seq<real>, y: seq<real>, fmt: FloatFormat, sqrt: real -> real)
    requires |x| == |y| > 0 && IsSqrt(sqrt) && OutliersOf(y, sqrt) != []
    ensures var s := YSections(x, y, fmt, sqrt);
      var o := OutliersOf(y, sqrt);
      |s| == |o| + 2 && s[1] == OutliersHeader &&
      forall j :: 0 <= j < |o| ==> o[j] < |x| && s[j + 2] == OutlierAt(o[j], Displayed(x[o[j]], fmt), Displayed(y[o[j]], fmt))
  {
    var o := OutliersOf(y, sqrt);
    var s := YSections(x, y, fmt, sqrt);
    var rows := OutlierRows(x, y, o, |o|, fmt);
    assert s == [YStats(Displayed(Mean(y), fmt), Displayed(StdDev(y, sqrt), fmt)), OutliersHeader] + rows;
    forall j | 0 <= j < |o|
      ensures s[j + 2] == OutlierAt(o[j], Displayed(x[o[j]], fmt), Displayed(y[o[j]], fmt))
    {
      OutlierRowsAt(x, y, o, |o|, fmt, j);
    }
  }

  // ---------------------------------------------------------------------
  // The trendline sections

  /** The straight line: nothing when all x are equal, otherwise the
      trendline whose slope and intercept solve the two normal equations
      and pass through the point of means. */
  lemma LinearTrend(x: seq<real>, y: seq<real>, fmt: FloatFormat)
    requires |x| == |y| > 0
    ensures var s := LinearSections(LeastSquares(x, y), fmt);
      (s == [] <==> AllEqual(x)) &&
      (!AllEqual(x) ==>
        var l := LeastSquares(x, y).value;
        s == [Trendline(Displayed(l.slope, fmt), Displayed(l.intercept, fmt))] &&
        Residual(l, |x| as real, SumTo(x, |x|), SumTo(y, |x|)) == 0.0 &&
        Residual(l, SumTo(x, |x|), DotTo(x, x, |x|), DotTo(x, y, |x|)) == 0.0 &&
        Residual(l, 1.0, Mean(x), Mean(y)) == 0.0)
  {
    LeastSquaresDefined(x, y);
    if !AllEqual(x) {
      NormalEquations(x, y, LeastSquares(x, y).value);
      ThroughMeans(x, y, LeastSquares(x, y).value);
    }
  }

  /** The quadratic: the determinant note exactly when the determinant is
      zero; otherwise the equation of the fitted parabola (whose
      coefficients solve the normal equations, Quadratic.CramerSolves),
      followed by the vertex line. */
  lemma QuadraticTrend(mo: Moments, fmt: FloatFormat)
    ensures var s := QuadraticSections(QuadraticFit(mo), fmt);
      (s == [QuadraticSingular] <==> Det(mo) == 0.0) &&
      (Det(mo) != 0.0 ==>
        var p := QuadraticFit(mo).value;
        s == [QuadraticEquation(Displayed(p.a, fmt), Displayed(p.b, fmt), Displayed(p.c, fmt))] + VertexSections(p, fmt))
  {
    var s := QuadraticSections(QuadraticFit(mo), fmt);
    if Det(mo) != 0.0 {
      assert s[0].QuadraticEquation?;
    }
  }

  /** The vertex line appears exactly when a ≠ 0; it shows the vertex
      (-b / 2a, its value there) and is labelled "maximum" exactly when
      a < 0. */
  lemma VertexLines(p: Parabola, fmt: FloatFormat)
    ensures var s := VertexSections(p, fmt);
      (|s| == 1 <==> p.a != 0.0) && |s| <= 1 &&
      (p.a != 0.0 ==>
        var vx := -p.b / (2.0 * p.a);
        s[0] == VertexLine(Displayed(vx, fmt), Displayed(Eval(p, vx), fmt), ExtremumOf(p)) &&
        (s[0].kind == Maximum <==> p.a < 0.0))
  {
  }

  /** The lines of a log fit that found its line and a non-zero a: the
      equation, the solve-for-x line (the power fit's only when b ≠ 0) and
      the r² line exactly when the log-domain r² exists. */
  lemma LogFitLines(c: Curve, l: Line, minX: real, r2: Option<real>, fmt: FloatFormat, exp: real -> real)
    requires exp(l.intercept) != 0.0
    ensures var s := LogFitSections(c, Some(l), minX, r2, fmt, exp);
      var a, b := Displayed(exp(l.intercept), fmt), Displayed(l.slope, fmt);
      |s| > 0 &&
      (c == Exponential ==> |s| >= 2 && s[0] == ExpEquation(a, b, Displayed(minX, fmt)) &&
                            s[1] == ExpSolveForX(Displayed(minX, fmt), a, b)) &&
      (c == Power ==> s[0] == PowerEquation(a, b) && (PowerSolveForX(a, b) in s <==> l.slope != 0.0)) &&
      (s[|s| - 1].FitR2? <==> r2.Some?) &&
      (r2.Some? ==> s[|s| - 1] == FitR2(c, Displayed(r2.value, fmt)))
  {
    var s := LogFitSections(c, Some(l), minX, r2, fmt, exp);
    var a, b := Displayed(exp(l.intercept), fmt), Displayed(l.slope, fmt);
    if c == Power && l.slope == 0.0 {
      assert s == [PowerEquation(a, b)] + R2Lines(c, r2, fmt);
      assert PowerSolveForX(a, b) !in s;
    }
  }

  /** The exponential fit: a y that is not positive stops it with a note
      naming the first such index; otherwise "all X values may be the same"
      exactly when they are, and once a ≠ 0 the equation shifts x by the
      minimum of x, with a = e^intercept and b = slope of ln y against the
      shifted x, and the r² line appears exactly when Pearson's r of x and
      ln y is defined, showing its square, in [0, 1]. */
  lemma ExponentialTrend(x: seq<real>, y: seq<real>, fmt: FloatFormat, m: MathFns)
    requires |x| == |y| > 0 && IsSqrt(m.sqrt)
    ensures var s := ExponentialSections(x, y, fmt, m);
      |s| > 0 &&
      (FirstNonPositive(y).Some? ==>
        var i := FirstNonPositive(y).value;
        s == [NotPositive(Exponential, YAxis, i, Displayed(y[i], fmt))] &&
        y[i] <= 0.0 && forall j :: 0 <= j < i ==> y[j] > 0.0) &&
      (FirstNonPositive(y).None? ==>
        (forall j :: 0 <= j < |y| ==> y[j] > 0.0) &&
        (s == [FlatX(Exponential)] <==> AllEqual(x)) &&
        (s[0].ExpEquation? ==>
          var v := Logs(y, m.ln);
          s[0].minX == Displayed(MinOf(x), fmt) &&
          s[0].a == Displayed(m.exp(LeastSquares(Shift(x, MinOf(x)), v).value.intercept), fmt) &&
          s[0].b == Displayed(LeastSquares(Shift(x, MinOf(x)), v).value.slope, fmt) &&
          (s[|s| - 1].FitR2? <==> PearsonOf(x, v, m.sqrt).Defined?) &&
          (s[|s| - 1].FitR2? ==>
            s[|s| - 1].r2 == Displayed(Sq(PearsonOf(x, v, m.sqrt).r), fmt) &&
            0.0 <= Sq(PearsonOf(x, v, m.sqrt).r) <= 1.0)))
  {
    if FirstNonPositive(y).None? {
      var u, v := Shift(x, MinOf(x)), Logs(y, m.ln);
      ShiftKeepsSpreads(x, v, MinOf(x));
      SpreadZeroIffAllEqual(x);
      SpreadZeroIffAllEqual(u);
      LeastSquaresDefined(u, v);
      if !AllEqual(x) && m.exp(LeastSquares(u, v).value.intercept) != 0.0 {
        LogR2IsPearsonSquared(u, v, m.sqrt);
        ShiftKeepsPearson(x, v, MinOf(x), m.sqrt);
        LogFitLines(Exponential, LeastSquares(u, v).value, MinOf(x), LogR2(u, v, m.sqrt), fmt, m.exp);
      }
    }
  }

  /** The power fit: every x is checked before any y, and the first value
      that is not positive stops it with a note naming its axis and index;
      otherwise "all X values may be the same" exactly when the ln x are
      all equal; the equation shows a = e^intercept and b = slope of the
      line fitted to (ln x, ln y), and once a ≠ 0 the r² line appears exactly when Pearson's
      r of ln x and ln y is defined, showing its square, in [0, 1]. */
  lemma PowerTrend(x: seq<real>, y: seq<real>, fmt: FloatFormat, m: MathFns)
    requires |x| == |y| > 0 && IsSqrt(m.sqrt)
    ensures var s := PowerSections(x, y, fmt, m);
      var u, v := Logs(x, m.ln), Logs(y, m.ln);
      |s| > 0 &&
      (FirstNonPositive(x).Some? ==>
        s == [NotPositive(Power, XAxis, FirstNonPositive(x).value, Displayed(x[FirstNonPositive(x).value], fmt))]) &&
      (FirstNonPositive(x).None? && FirstNonPositive(y).Some? ==>
        s == [NotPositive(Power, YAxis, FirstNonPositive(y).value, Displayed(y[FirstNonPositive(y).value], fmt))]) &&
      (FirstNonPositive(x).None? && FirstNonPositive(y).None? ==>
        (s == [FlatX(Power)] <==> AllEqual(u)) &&
        (s[0].PowerEquation? ==>
          s[0].a == Displayed(m.exp(LeastSquares(u, v).value.intercept), fmt) &&
          s[0].b == Displayed(LeastSquares(u, v).value.slope, fmt) &&
          (s[|s| - 1].FitR2? <==> PearsonOf(u, v, m.sqrt).Defined?) &&
          (s[|s| - 1].FitR2? ==>
            s[|s| - 1].r2 == Displayed(Sq(PearsonOf(u, v, m.sqrt).r), fmt) &&
            0.0 <= Sq(PearsonOf(u, v, m.sqrt).r) <= 1.0)))
  {
    var u, v := Logs(x, m.ln), Logs(y, m.ln);
    if FirstNonPositive(x).None? && FirstNonPositive(y).None? {
      LeastSquaresDefined(u, v);
      if !AllEqual(u) && m.exp(LeastSquares(u, v).value.intercept) != 0.0 {
        LogR2IsPearsonSquared(u, v, m.sqrt);
        LogFitLines(Power, LeastSquares(u, v).value, 0.0, LogR2(u, v, m.sqrt), fmt, m.exp);
      }
    }
  }
}
