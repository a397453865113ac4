/** The engine itself: calculateAndGenerateOutput writes the report section
    by section into a builder, with the same loops, running sums, guards and
    early returns as the Go function, and each step is proved to write
    exactly the sections Report.ReportOf describes. The arithmetic of each
    step sits in a method of its own that changes nothing and is proved
    against the function of the model it computes. */
module Sigma {
  import opened Sums
  import opened Numerics
  import opened Stats
  import opened Correlation
  import opened Outliers
  import opened Fit
  import opened Quadratic
  import opened LogFit
  import opened Scans
  import opened Format
  import opened Outcomes
  import opened Report

  /** The engine's strings.Builder: the sections written so far. */
  class Builder {
    var sections: seq<Section>

    constructor ()
      ensures sections == []
    {
      sections := [];
    }

    /** WriteString: one more section at the end. */
    method Write(s: Section)
      modifies this
      ensures sections == old(sections) + [s]
    {
      sections := sections + [s];
    }
  }

  // ---------------------------------------------------------------------
  // The table and the sums

  /** The first loop: Σx, Σy, Σx², Σy² and Σxy in one pass. */
  method Accumulate(x: seq<real>, y: seq<real>)
    returns (sumX: real, sumY: real, sumX2: real, sumY2: real, sumXY: real)
    requires |x| == |y|
    ensures sumX == SumTo(x, |x|) && sumY == SumTo(y, |x|)
    ensures sumX2 == DotTo(x, x, |x|) && sumY2 == DotTo(y, y, |x|) && sumXY == DotTo(x, y, |x|)
  {
    sumX, sumY, sumX2, sumY2, sumXY := 0.0, 0.0, 0.0, 0.0, 0.0;
    var i := 0;
    while i < |x|
      invariant 0 <= i <= |x|
      invariant sumX == SumTo(x, i) && sumY == SumTo(y, i)
      invariant sumX2 == DotTo(x, x, i) && sumY2 == DotTo(y, y, i) && sumXY == DotTo(x, y, i)
    {
      var xi, yi := x[i], y[i];
      sumX := sumX + xi;
      sumY := sumY + yi;
      sumX2 := sumX2 + xi * xi;
      sumY2 := sumY2 + yi * yi;
      sumXY := sumXY + xi * yi;
      i := i + 1;
    }
  }

  /** float64(n)·d - a·b from the running sums d = Σuv, a = Σu and b = Σv of
      the samples u and v: the engine's numerator (u = x, v = y), termX and
      termY (u = v), and their counterparts in the log fits. */
  method CrossTerm(u: seq<real>, v: seq<real>, d: real, a: real, b: real) returns (t: real)
    requires |u| == |v| && d == DotTo(u, v, |u|) && a == SumTo(u, |u|) && b == SumTo(v, |u|)
    ensures t == CoSpread(u, v)
    ensures u == v ==> t == Spread(u)
  {
    t := (|u| as real) * d - a * b;
  }

  /** The header, one row per sample in input order, and the totals of the
      engine's running sums with n. */
  method WriteTable(out: Builder, x: seq<real>, y: seq<real>, sumX: real, sumY: real, sumX2: real,
                    sumY2: real, sumXY: real, fmt: FloatFormat)
    requires |x| == |y|
    requires sumX == SumTo(x, |x|) && sumY == SumTo(y, |x|)
    requires sumX2 == DotTo(x, x, |x|) && sumY2 == DotTo(y, y, |x|) && sumXY == DotTo(x, y, |x|)
    modifies out
    ensures out.sections == old(out.sections) + TableOf(x, y, fmt) + TotalsOf(x, y, fmt)
  {
    out.Write(TableHeader);
    ghost var header := out.sections;
    var i := 0;
    while i < |x|
      invariant 0 <= i <= |x|
      invariant out.sections == header + RowsTo(x, y, i, fmt)
    {
      var row := RowOf(x, y, i, fmt);
      out.Write(row);
      assert RowsTo(x, y, i + 1, fmt) == RowsTo(x, y, i, fmt) + [row];
      i := i + 1;
    }
    out.Write(Totals(Displayed(sumX, fmt), Displayed(sumY, fmt), Displayed(sumX2, fmt),
                     Displayed(sumY2, fmt), Displayed(sumXY, fmt), |x|));
  }

  // ---------------------------------------------------------------------
  // Correlation

  /** r, r² and the two labels, or the undefined note when termX·termY = 0. */
  method WriteCorrelation(out: Builder, numerator: real, termX: real, termY: real, sqrt: real -> real)
    requires IsSqrt(sqrt) && termX >= 0.0 && termY >= 0.0
    modifies out
    ensures out.sections == old(out.sections) + CorrelationSections(PearsonFrom(numerator, termX, termY, sqrt))
  {
    var rDenominator := termX * termY;
    if rDenominator != 0.0 {
      assert sqrt(rDenominator) > 0.0 by {
        MulNonNegative(termX, termY, rDenominator);
        SqrtPositive(sqrt, rDenominator);
      }
      var rVal := numerator / sqrt(rDenominator);
      assert PearsonFrom(numerator, termX, termY, sqrt) == Defined(rVal);
      WriteR(out, rVal);
    } else {
      out.Write(RUndefined);
    }
  }

  /** The r and r² lines, then the sign label and the strength label. */
  method WriteR(out: Builder, rVal: real)
    modifies out
    ensures out.sections == old(out.sections) + CorrelationSections(Defined(rVal))
  {
    ghost var before := out.sections;
    out.Write(RValue(rVal));
    out.Write(RSquared(rVal * rVal));
    WriteSign(out, rVal);
    WriteStrength(out, rVal);
    assert |CorrelationSections(Defined(rVal))| == 4;
    assert CorrelationSections(Defined(rVal))[1] == RSquared(rVal * rVal);
  }

  /** Positive, negative, or neither. */
  method WriteSign(out: Builder, rVal: real)
    modifies out
    ensures out.sections == old(out.sections) + [SignLine(SignOf(rVal))]
  {
    if rVal > 0.0 {
      out.Write(SignLine(Positive));
    } else if rVal < 0.0 {
      out.Write(SignLine(Negative));
    } else {
      out.Write(SignLine(NoSign));
    }
  }

  /** The switch on |r|: the first case that holds picks the label. */
  method WriteStrength(out: Builder, rVal: real)
    modifies out
    ensures out.sections == old(out.sections) + [StrengthLine(StrengthOf(rVal))]
  {
    var absR := Abs(rVal);
    if absR == 1.0 {
      out.Write(StrengthLine(Perfect));
    } else if absR >= 0.7 {
      out.Write(StrengthLine(Strong));
    } else if absR >= 0.5 {
      out.Write(StrengthLine(Moderate));
    } else if absR >= 0.3 {
      out.Write(StrengthLine(Weak));
    } else {
      out.Write(StrengthLine(NoSpectrum));
    }
  }

  // ---------------------------------------------------------------------
  // Mean, deviation and outliers of y

  /** The mean of y, then the square root of the mean squared deviation. */
  method MeanAndDeviation(y: seq<real>, sqrt: real -> real) returns (meanY: real, stdDevY: real)
    requires |y| > 0
    ensures meanY == Mean(y) && stdDevY == StdDev(y, sqrt)
  {
    var n := |y|;
    meanY := 0.0;
    var i := 0;
    while i < n
      invariant 0 <= i <= n && meanY == SumTo(y, i)
    {
      meanY := meanY + y[i];
      i := i + 1;
    }
    meanY := meanY / (n as real);

    stdDevY := 0.0;
    i := 0;
    while i < n
      invariant 0 <= i <= n && stdDevY == DevTo(y, y, meanY, meanY, i)
    {
      stdDevY := stdDevY + (y[i] - meanY) * (y[i] - meanY);
      i := i + 1;
    }
    stdDevY := sqrt(stdDevY / (n as real));
  }

  /** The indices whose y lies more than threshold·stdDevY from the mean,
      appended in ascending order. */
  method FindOutliers(y: seq<real>, meanY: real, stdDevY: real) returns (outliers: seq<nat>)
    ensures outliers == Flagged(y, |y|, meanY, Threshold * stdDevY)
  {
    outliers := [];
    var threshold := 2.0;
    var i := 0;
    while i < |y|
      invariant 0 <= i <= |y| && outliers == Flagged(y, i, meanY, threshold * stdDevY)
    {
      if Abs(y[i] - meanY) > threshold * stdDevY {
        outliers := outliers + [i];
      }
      i := i + 1;
    }
  }

  /** One line per outlier index, or the note that there are none. */
  method WriteOutliers(out: Builder, x: seq<real>, y: seq<real>, outliers: seq<nat>, fmt: FloatFormat)
    requires forall j :: 0 <= j < |outliers| ==> outliers[j] < |x| && outliers[j] < |y|
    modifies out
    ensures out.sections == old(out.sections) + OutlierSections(x, y, outliers, fmt)
  {
    if |outliers| > 0 {
      out.Write(OutliersHeader);
      ghost var header := out.sections;
      var j := 0;
      while j < |outliers|
        invariant 0 <= j <= |outliers|
        invariant out.sections == header + OutlierRows(x, y, outliers, j, fmt)
      {
        var idx := outliers[j];
        var line := OutlierAt(idx, Displayed(x[idx], fmt), Displayed(y[idx], fmt));
        out.Write(line);
        assert OutlierRows(x, y, outliers, j + 1, fmt) == OutlierRows(x, y, outliers, j, fmt) + [line];
        j := j + 1;
      }
    } else {
      out.Write(NoOutliers);
    }
  }

  /** The mean and standard deviation of y, then its outliers. */
  method WriteYStats(out: Builder, x: seq<real>, y: seq<real>, fmt: FloatFormat, sqrt: real -> real)
    requires |x| == |y| > 0
    modifies out
    ensures out.sections == old(out.sections) + YSections(x, y, fmt, sqrt)
  {
    var meanY, stdDevY := MeanAndDeviation(y, sqrt);
    var outliers := FindOutliers(y, meanY, stdDevY);
    ghost var before := out.sections;
    out.Write(YStats(Displayed(meanY, fmt), Displayed(stdDevY, fmt)));
    WriteOutliers(out, x, y, outliers, fmt);
  }

  // ---------------------------------------------------------------------
  // Straight lines

  /** slope = numerator / termX and intercept = (Σv - slope·Σu) / n, or no
      line when termX is zero. */
  method SolveLine(n: nat, su: real, sv: real, termX: real, numerator: real) returns (line: Option<Line>)
    requires n > 0
    ensures line == LineFrom(n, su, sv, termX, numerator)
  {
    if termX == 0.0 {
      return None;
    }
    var slope := numerator / termX;
    var intercept := (sv - slope * su) / (n as real);
    LineFromSteps(n, su, sv, termX, numerator, slope, intercept);
    return Some(Line(slope, intercept));
  }

  /** The trendline equation, when there is a line. */
  method WriteLinear(out: Builder, line: Option<Line>, fmt: FloatFormat)
    modifies out
    ensures out.sections == old(out.sections) + LinearSections(line, fmt)
  {
    if line.Some? {
      out.Write(Trendline(Displayed(line.value.slope, fmt), Displayed(line.value.intercept, fmt)));
    }
  }

  // ---------------------------------------------------------------------
  // The quadratic fit

  /** The second loop of the quadratic fit: Σx³, Σx⁴ and Σx²y. */
  method HigherSums(x: seq<real>, y: seq<real>) returns (sumX3: real, sumX4: real, sumX2Y: real)
    requires |x| == |y|
    ensures sumX3 == CubeTo(x, |x|) && sumX4 == QuartTo(x, |x|) && sumX2Y == SqDotTo(x, y, |x|)
  {
    sumX3, sumX4, sumX2Y := 0.0, 0.0, 0.0;
    var i := 0;
    while i < |x|
      invariant 0 <= i <= |x|
      invariant sumX3 == CubeTo(x, i) && sumX4 == QuartTo(x, i) && sumX2Y == SqDotTo(x, y, i)
    {
      HigherStep(x, y, i);
      sumX3 := sumX3 + x[i] * x[i] * x[i];
      sumX4 := sumX4 + x[i] * x[i] * x[i] * x[i];
      sumX2Y := sumX2Y + x[i] * x[i] * y[i];
      i := i + 1;
    }
  }

  /** The determinant and, when it is not zero, a, b and c by Cramer's rule. */
  method SolveQuadratic(n: nat, sumX: real, sumY: real, sumX2: real, sumX3: real, sumX4: real,
                        sumXY: real, sumX2Y: real) returns (fit: Option<Parabola>)
    ensures fit == QuadraticFit(Moments(n as real, sumX, sumY, sumX2, sumX3, sumX4, sumXY, sumX2Y))
  {
    var m := Moments(n as real, sumX, sumY, sumX2, sumX3, sumX4, sumXY, sumX2Y);
    var det := Det(m);
    if det == 0.0 {
      return None;
    }
    var a, b, c := NumA(m) / det, NumB(m) / det, NumC(m) / det;
    FitSteps(m, det, a, b, c);
    return Some(Parabola(a, b, c));
  }

  /** The equation, then the vertex and whether it is a maximum or a
      minimum; the vertex is left out when a = 0. */
  method WriteQuadraticLines(out: Builder, fit: Option<Parabola>, fmt: FloatFormat)
    modifies out
    ensures out.sections == old(out.sections) + QuadraticSections(fit, fmt)
  {
    if fit.None? {
      out.Write(QuadraticSingular);
      return;
    }
    var a, b, c := fit.value.a, fit.value.b, fit.value.c;
    out.Write(QuadraticEquation(Displayed(a, fmt), Displayed(b, fmt), Displayed(c, fmt)));
    if a != 0.0 {
      var vertexX := -b / (2.0 * a);
      var vertexY := a * vertexX * vertexX + b * vertexX + c;
      var vertexType := Minimum;
      if a < 0.0 {
        vertexType := Maximum;
      }
      VertexSteps(fit.value, vertexX, vertexY);
      out.Write(VertexLine(Displayed(vertexX, fmt), Displayed(vertexY, fmt), vertexType));
    }
  }

  /** The quadratic fit from the sums of the first loop and its own. */
  method WriteQuadratic(out: Builder, x: seq<real>, y: seq<real>, sumX: real, sumY: real, sumX2: real,
                        sumXY: real, fmt: FloatFormat)
    requires |x| == |y| && sumX == SumTo(x, |x|) && sumY == SumTo(y, |x|)
    requires sumX2 == DotTo(x, x, |x|) && sumXY == DotTo(x, y, |x|)
    modifies out
    ensures out.sections == old(out.sections) + QuadraticSections(QuadraticFit(MomentsOf(x, y)), fmt)
  {
    var sumX3, sumX4, sumX2Y := HigherSums(x, y);
    var fit := SolveQuadratic(|x|, sumX, sumY, sumX2, sumX3, sumX4, sumXY, sumX2Y);
    WriteQuadraticLines(out, fit, fmt);
  }

  // ---------------------------------------------------------------------
  // The log fits

  /** The scan for minX: start at x[0], take any strictly smaller value. */
  method FindMinX(x: seq<real>) returns (minX: real)
    requires |x| > 0
    ensures minX == MinOf(x)
  {
    minX := x[0];
    var i := 0;
    while i < |x|
      invariant 0 <= i <= |x| && minX == RunningMin(x, i)
    {
      if x[i] < minX {
        minX := x[i];
      }
      i := i + 1;
    }
  }

  /** shiftedX: a new array holding x[i] - minX. */
  method ShiftBy(x: seq<real>, minX: real) returns (shiftedX: array<real>)
    ensures fresh(shiftedX) && shiftedX[..] == Shift(x, minX)
  {
    shiftedX := new real[|x|];
    var i := 0;
    while i < |x|
      invariant 0 <= i <= |x| && forall j :: 0 <= j < i ==> shiftedX[j] == x[j] - minX
      modifies shiftedX
    {
      shiftedX[i] := x[i] - minX;
      i := i + 1;
    }
  }

  /** lnY: a new array holding ln y[i]. */
  method LogsOf(y: seq<real>, ln: real -> real) returns (lnY: array<real>)
    ensures fresh(lnY) && lnY[..] == Logs(y, ln)
  {
    lnY := new real[|y|];
    var i := 0;
    while i < |y|
      invariant 0 <= i <= |y| && forall j :: 0 <= j < i ==> lnY[j] == ln(y[j])
      modifies lnY
    {
      lnY[i] := ln(y[i]);
      i := i + 1;
    }
  }

  /** lnX and lnY, filled in one loop. */
  method LogPairs(x: seq<real>, y: seq<real>, ln: real -> real) returns (lnX: array<real>, lnY: array<real>)
    requires |x| == |y|
    ensures fresh(lnX) && fresh(lnY) && lnX != lnY
    ensures lnX[..] == Logs(x, ln) && lnY[..] == Logs(y, ln)
  {
    lnX := new real[|x|];
    lnY := new real[|x|];
    var i := 0;
    while i < |x|
      invariant 0 <= i <= |x|
      invariant forall j :: 0 <= j < i ==> lnX[j] == ln(x[j]) && lnY[j] == ln(y[j])
      modifies lnX, lnY
    {
      lnX[i] := ln(x[i]);
      lnY[i] := ln(y[i]);
      i := i + 1;
    }
  }

  /** The sums of a log fit over the transformed samples u and v: Σu, Σv,
      Σu² and Σuv. */
  method LogSums(u: array<real>, v: array<real>) returns (su: real, sv: real, suu: real, suv: real)
    requires u.Length == v.Length
    ensures su == SumTo(u[..], u.Length) && sv == SumTo(v[..], u.Length)
    ensures suu == DotTo(u[..], u[..], u.Length) && suv == DotTo(u[..], v[..], u.Length)
  {
    su, sv, suu, suv := 0.0, 0.0, 0.0, 0.0;
    var i := 0;
    while i < u.Length
      invariant 0 <= i <= u.Length
      invariant su == SumTo(u[..], i) && sv == SumTo(v[..], i)
      invariant suu == DotTo(u[..], u[..], i) && suv == DotTo(u[..], v[..], i)
    {
      sv := sv + v[i];
      suv := suv + u[i] * v[i];
      su := su + u[i];
      suu := suu + u[i] * u[i];
      i := i + 1;
    }
  }

  /** Σ(ln y)², the last loop of both log fits. */
  method SumOfSquares(v: array<real>) returns (svv: real)
    ensures svv == DotTo(v[..], v[..], v.Length)
  {
    svv := 0.0;
    var i := 0;
    while i < v.Length
      invariant 0 <= i <= v.Length && svv == DotTo(v[..], v[..], i)
    {
      svv := svv + v[i] * v[i];
      i := i + 1;
    }
  }

  /** rLn² when termX·termLnY > 0, with rLn = numeratorLn / √(termX·termLnY). */
  method SolveR2(numerator: real, termX: real, termY: real, sqrt: real -> real) returns (r2: Option<real>)
    requires IsSqrt(sqrt)
    ensures r2 == R2From(numerator, termX, termY, sqrt)
  {
    var rDenominator := termX * termY;
    if rDenominator > 0.0 {
      SqrtPositive(sqrt, rDenominator);
      var rLn := numerator / sqrt(rDenominator);
      R2Steps(numerator, termX, termY, sqrt, rLn);
      return Some(rLn * rLn);
    }
    return None;
  }

  /** The equation lines of a log fit. */
  method WriteEquations(out: Builder, c: Curve, a: real, b: real, minX: real, fmt: FloatFormat)
    modifies out
    ensures out.sections == old(out.sections) + EquationLines(c, a, b, minX, fmt)
  {
    if c == Exponential {
      out.Write(ExpEquation(Displayed(a, fmt), Displayed(b, fmt), Displayed(minX, fmt)));
      out.Write(ExpSolveForX(Displayed(minX, fmt), Displayed(a, fmt), Displayed(b, fmt)));
    } else {
      out.Write(PowerEquation(Displayed(a, fmt), Displayed(b, fmt)));
      if b != 0.0 {
        out.Write(PowerSolveForX(Displayed(a, fmt), Displayed(b, fmt)));
      }
    }
  }

  /** The tail both log fits share, on the transformed samples u and v: the
      line (slope b, intercept ln a), a = exp(ln a), the equation lines, and
      the log-domain r². */
  method WriteLogFit(out: Builder, c: Curve, u: array<real>, v: array<real>,
                     su: real, sv: real, suu: real, suv: real, minX: real, fmt: FloatFormat, m: MathFns)
    requires 0 < u.Length == v.Length && IsSqrt(m.sqrt)
    requires su == SumTo(u[..], u.Length) && sv == SumTo(v[..], u.Length)
    requires suu == DotTo(u[..], u[..], u.Length) && suv == DotTo(u[..], v[..], u.Length)
    modifies out
    ensures out.sections == old(out.sections) +
      LogFitSections(c, LeastSquares(u[..], v[..]), minX, LogR2(u[..], v[..], m.sqrt), fmt, m.exp)
  {
    var n := u.Length;
    var termX := CrossTerm(u[..], u[..], suu, su, su);
    var numerator := CrossTerm(u[..], v[..], suv, su, sv);
    assert termX == Spread(u[..]) && numerator == CoSpread(u[..], v[..]);
    var line := SolveLine(n, su, sv, termX, numerator);
    if line.None? {
      out.Write(FlatX(c));
      return;
    }
    var b, lnA := line.value.slope, line.value.intercept;
    var a := m.exp(lnA);
    if a == 0.0 {
      out.Write(InvalidA(c));
      return;
    }
    WriteEquations(out, c, a, b, minX, fmt);
    var sumLnY2 := SumOfSquares(v);
    var termLnY := CrossTerm(v[..], v[..], sumLnY2, sv, sv);
    assert termLnY == Spread(v[..]);
    var r2 := SolveR2(numerator, termX, termLnY, m.sqrt);
    if r2.Some? {
      out.Write(FitR2(c, Displayed(r2.value, fmt)));
    }
  }

  /** y = a·e^(b(x - minX)): every y must be positive; x is shifted by its
      minimum and ln y is fitted against the shifted x. */
  method WriteExponential(out: Builder, x: seq<real>, y: seq<real>, fmt: FloatFormat, m: MathFns)
    requires |x| == |y| > 0 && IsSqrt(m.sqrt)
    modifies out
    ensures out.sections == old(out.sections) + ExponentialSections(x, y, fmt, m)
  {
    var i := 0;
    while i < |y|
      invariant 0 <= i <= |y| && forall j :: 0 <= j < i ==> y[j] > 0.0
    {
      if y[i] <= 0.0 {
        FirstNonPositiveIs(y, i);
        out.Write(NotPositive(Exponential, YAxis, i, Displayed(y[i], fmt)));
        return;
      }
      i := i + 1;
    }
    FirstNonPositiveIs(y, |y|);
    var minX := FindMinX(x);
    var shiftedX := ShiftBy(x, minX);
    var lnY := LogsOf(y, m.ln);
    var sumShiftedX, sumLnY, sumShiftedX2, sumXLnY := LogSums(shiftedX, lnY);
    WriteLogFit(out, Exponential, shiftedX, lnY, sumShiftedX, sumLnY, sumShiftedX2, sumXLnY, minX, fmt, m);
  }

  /** y = a·x^b: every x and then every y must be positive; ln y is fitted
      against ln x. */
  method WritePower(out: Builder, x: seq<real>, y: seq<real>, fmt: FloatFormat, m: MathFns)
    requires |x| == |y| > 0 && IsSqrt(m.sqrt)
    modifies out
    ensures out.sections == old(out.sections) + PowerSections(x, y, fmt, m)
  {
    var i := 0;
    while i < |x|
      invariant 0 <= i <= |x| && forall j :: 0 <= j < i ==> x[j] > 0.0
    {
      if x[i] <= 0.0 {
        FirstNonPositiveIs(x, i);
        out.Write(NotPositive(Power, XAxis, i, Displayed(x[i], fmt)));
        return;
      }
      i := i + 1;
    }
    FirstNonPositiveIs(x, |x|);
    i := 0;
    while i < |y|
      invariant 0 <= i <= |y| && forall j :: 0 <= j < i ==> y[j] > 0.0
    {
      if y[i] <= 0.0 {
        FirstNonPositiveIs(y, i);
        out.Write(NotPositive(Power, YAxis, i, Displayed(y[i], fmt)));
        return;
      }
      i := i + 1;
    }
    FirstNonPositiveIs(y, |y|);
    var lnX, lnY := LogPairs(x, y, m.ln);
    var sumLnX, sumLnY, sumLnX2, sumLnXLnY := LogSums(lnX, lnY);
    // The power curve has no shift: EquationLines ignores minX for Power.
    WriteLogFit(out, Power, lnX, lnY, sumLnX, sumLnY, sumLnX2, sumLnXLnY, 0.0, fmt, m);
  }

  // ---------------------------------------------------------------------
  // The whole report

  /** The branch on the regression type. */
  method WriteTrend(out: Builder, regressionType: string, x: seq<real>, y: seq<real>,
                    sumX: real, sumY: real, sumX2: real, sumXY: real, termX: real, numerator: real,
                    fmt: FloatFormat, m: MathFns)
    requires |x| == |y| > 0 && IsSqrt(m.sqrt)
    requires sumX == SumTo(x, |x|) && sumY == SumTo(y, |x|) && sumX2 == DotTo(x, x, |x|) && sumXY == DotTo(x, y, |x|)
    requires termX == Spread(x) && numerator == CoSpread(x, y)
    modifies out
    ensures out.sections == old(out.sections) + TrendSections(KindOf(regressionType), x, y, fmt, m)
  {
    if regressionType == "quadratic" {
      WriteQuadratic(out, x, y, sumX, sumY, sumX2, sumXY, fmt);
    } else if regressionType == "exponential" {
      WriteExponential(out, x, y, fmt, m);
    } else if regressionType == "power" {
      WritePower(out, x, y, fmt, m);
    } else {
      var line := SolveLine(|x|, sumX, sumY, termX, numerator);
      WriteLinear(out, line, fmt);
    }
  }

  /** calculateAndGenerateOutput: the error for empty or mismatched input,
      otherwise the whole report. */
  method CalculateAndGenerateOutput(x: seq<real>, y: seq<real>, regressionType: string, useRounding: bool,
                                    m: MathFns) returns (r: Result)
    requires IsSqrt(m.sqrt)
    ensures r == ReportOf(x, y, regressionType, useRounding, m)
  {
    if |x| == 0 || |y| == 0 {
      return Err(EmptyInput);
    }
    if |x| != |y| {
      return Err(LengthMismatch);
    }
    var sumX, sumY, sumX2, sumY2, sumXY := Accumulate(x, y);

    var fmt := FloatFormat(useRounding, m.round);
    var out := new Builder();
    WriteTable(out, x, y, sumX, sumY, sumX2, sumY2, sumXY, fmt);
    ghost var head := out.sections;
    assert head == TableOf(x, y, fmt) + TotalsOf(x, y, fmt);

    var numerator := CrossTerm(x, y, sumXY, sumX, sumY);
    var termX := CrossTerm(x, x, sumX2, sumX, sumX);
    var termY := CrossTerm(y, y, sumY2, sumY, sumY);
    assert termX == Spread(x) && termY == Spread(y) && numerator == CoSpread(x, y);
    SpreadNonNegative(x);
    SpreadNonNegative(y);
    WriteCorrelation(out, numerator, termX, termY, m.sqrt);
    ghost var correlation := CorrelationSections(PearsonOf(x, y, m.sqrt));
    assert out.sections == head + correlation;
    WriteYStats(out, x, y, fmt, m.sqrt);
    ghost var ystats := YSections(x, y, fmt, m.sqrt);
    assert out.sections == head + correlation + ystats;
    WriteTrend(out, regressionType, x, y, sumX, sumY, sumX2, sumXY, termX, numerator, fmt, m);
    ghost var trend := TrendSections(KindOf(regressionType), x, y, fmt, m);
    assert out.sections == head + correlation + ystats + trend;
    assert ReportOf(x, y, regressionType, useRounding, m) == Ok(head + correlation + ystats + trend);
    return Ok(out.sections);
  }
}
