/** The report the engine writes, as a sequence of sections: the table of
    samples, the six sums, Pearson's r and its labels, the mean, standard
    deviation and outliers of y, and one trendline section chosen by the
    regression type. Every number the engine prints through formatFloatSmart
    is held as the value it is shown as (Format.Displayed); r and r², which
    it prints with four decimals, are held as computed. */
module Report {
  import opened Sums
  import opened Numerics
  import opened Stats
  import opened Correlation
  import opened Outliers
  import opened Fit
  import opened Quadratic
  import opened LogFit
  import opened Scans
  import opened Format
  import opened Outcomes

  /** The two log-linearised fits. */
  datatype Curve = Exponential | Power

  /** Which sample a log fit found a non-positive value in. */
  datatype Axis = XAxis | YAxis

  datatype Section =
    | TableHeader
    | TableRow(index: nat, x: real, y: real, x2: real, y2: real, xy: real)
    | Totals(sumX: real, sumY: real, sumX2: real, sumY2: real, sumXY: real, n: nat)
    | RValue(r: real)
    | RSquared(r2: real)
    | SignLine(sign: Sign)
    | StrengthLine(strength: Strength)
    | RUndefined
    | YStats(mean: real, stdDev: real)
    | OutliersHeader
    | OutlierAt(index: nat, x: real, y: real)
    | NoOutliers
    | QuadraticEquation(a: real, b: real, c: real)
    | VertexLine(vx: real, vy: real, kind: Extremum)
    | QuadraticSingular
    | NotPositive(curve: Curve, axis: Axis, index: nat, value: real)
    | FlatX(curve: Curve)
    | InvalidA(curve: Curve)
    | ExpEquation(a: real, b: real, minX: real)
    | ExpSolveForX(minX: real, a: real, b: real)
    | PowerEquation(a: real, b: real)
    | PowerSolveForX(a: real, b: real)
    | FitR2(curve: Curve, r2: real)
    | Trendline(slope: real, intercept: real)

  /** The two inputs the engine refuses with an error and no report. */
  datatype InputError = EmptyInput | LengthMismatch

  datatype Result = Ok(report: seq<Section>) | Err(error: InputError)

  datatype RegressionKind = QuadraticKind | ExponentialKind | PowerKind | LinearKind

  /** "quadratic", "exponential" and "power" select their fits; any other
      string, the empty one included, selects the straight line. */
  function KindOf(regressionType: string): (k: RegressionKind)
    ensures k == QuadraticKind <==> regressionType == "quadratic"
    ensures k == ExponentialKind <==> regressionType == "exponential"
    ensures k == PowerKind <==> regressionType == "power"
  {
    if regressionType == "quadratic" then QuadraticKind
    else if regressionType == "exponential" then ExponentialKind
    else if regressionType == "power" then PowerKind
    else LinearKind
  }

  // ---------------------------------------------------------------------
  // The table and the sums

  /** Row i of the table, numbered from one. */
  function RowOf(x: seq<real>, y: seq<real>, i: nat, fmt: FloatFormat): Section
    requires i < |x| && i < |y|
  {
    TableRow(i + 1, Displayed(x[i], fmt), Displayed(y[i], fmt), Displayed(x[i] * x[i], fmt),
             Displayed(y[i] * y[i], fmt), Displayed(x[i] * y[i], fmt))
  }

  /** The rows of the first k samples, in input order. */
  function RowsTo(x: seq<real>, y: seq<real>, k: nat, fmt: FloatFormat): (r: seq<Section>)
    requires k <= |x| && k <= |y|
    ensures |r| == k
  {
    if k == 0 then [] else RowsTo(x, y, k - 1, fmt) + [RowOf(x, y, k - 1, fmt)]
  }

  /** Entry i of the first k rows is row i. */
  lemma {:induction false} RowsToAt(x: seq<real>, y: seq<real>, k: nat, fmt: FloatFormat, i: nat)
    requires k <= |x| && k <= |y| && i < k
    ensures RowsTo(x, y, k, fmt)[i] == RowOf(x, y, i, fmt)
  {
    if i < k - 1 {
      RowsToAt(x, y, k - 1, fmt, i);
    }
  }

  function TableOf(x: seq<real>, y: seq<real>, fmt: FloatFormat): seq<Section>
    requires |x| == |y|
  {
    [TableHeader] + RowsTo(x, y, |x|, fmt)
  }

  function TotalsOf(x: seq<real>, y: seq<real>, fmt: FloatFormat): seq<Section>
    requires |x| == |y|
  {
    var n := |x|;
    [Totals(Displayed(SumTo(x, n), fmt), Displayed(SumTo(y, n), fmt), Displayed(DotTo(x, x, n), fmt),
            Displayed(DotTo(y, y, n), fmt), Displayed(DotTo(x, y, n), fmt), n)]
  }

  // ---------------------------------------------------------------------
  // Correlation

  /** r, r², one sign label and one strength label; or the undefined note. */
  function CorrelationSections(p: Pearson): seq<Section>
  {
    match p
    case Undefined => [RUndefined]
    case Defined(r) => [RValue(r), RSquared(r * r), SignLine(SignOf(r)), StrengthLine(StrengthOf(r))]
  }

  // ---------------------------------------------------------------------
  // Mean, deviation and outliers of y

  /** The outlier lines for the indices in idx (each below |x| and |y|). */
  function OutlierRows(x: seq<real>, y: seq<real>, idx: seq<nat>, k: nat, fmt: FloatFormat): (r: seq<Section>)
    requires k <= |idx| && forall j :: 0 <= j < |idx| ==> idx[j] < |x| && idx[j] < |y|
    ensures |r| == k
  {
    if k == 0 then []
    else OutlierRows(x, y, idx, k - 1, fmt) +
         [OutlierAt(idx[k - 1], Displayed(x[idx[k - 1]], fmt), Displayed(y[idx[k - 1]], fmt))]
  }

  /** Line j of the outlier lines names the j-th index. */
  lemma {:induction false} OutlierRowsAt(x: seq<real>, y: seq<real>, idx: seq<nat>, k: nat, fmt: FloatFormat, j: nat)
    requires k <= |idx| && forall l :: 0 <= l < |idx| ==> idx[l] < |x| && idx[l] < |y|
    requires j < k
    ensures OutlierRows(x, y, idx, k, fmt)[j] == OutlierAt(idx[j], Displayed(x[idx[j]], fmt), Displayed(y[idx[j]], fmt))
  {
    if j < k - 1 {
      OutlierRowsAt(x, y, idx, k - 1, fmt, j);
    }
  }

  function OutlierSections(x: seq<real>, y: seq<real>, idx: seq<nat>, fmt: FloatFormat): seq<Section>
    requires forall j :: 0 <= j < |idx| ==> idx[j] < |x| && idx[j] < |y|
  {
    if |idx| > 0 then [OutliersHeader] + OutlierRows(x, y, idx, |idx|, fmt) else [NoOutliers]
  }

  function YSections(x: seq<real>, y: seq<real>, fmt: FloatFormat, sqrt: real -> real): seq<Section>
    requires |x| == |y| > 0
  {
    [YStats(Displayed(Mean(y), fmt), Displayed(StdDev(y, sqrt), fmt))] +
    OutlierSections(x, y, OutliersOf(y, sqrt), fmt)
  }

  // ---------------------------------------------------------------------
  // The trendline sections

  /** The vertex line, left out when a = 0 (the fit is then a straight line
      and has no vertex). */
  function VertexSections(p: Parabola, fmt: FloatFormat): seq<Section>
  {
    match VertexOf(p)
    case None => []
    case Some(v) => [VertexLine(Displayed(v.0, fmt), Displayed(v.1, fmt), ExtremumOf(p))]
  }

  /** The equation and vertex of a fitted parabola, or the note that the
      determinant is zero. */
  function QuadraticSections(fit: Option<Parabola>, fmt: FloatFormat): seq<Section>
  {
    match fit
    case None => [QuadraticSingular]
    case Some(p) =>
      [QuadraticEquation(Displayed(p.a, fmt), Displayed(p.b, fmt), Displayed(p.c, fmt))] + VertexSections(p, fmt)
  }

  /** The equation lines of a log fit y = a·e^(b(x - minX)) or y = a·x^b; the
      power fit writes its solve-for-x line only when b ≠ 0. */
  function EquationLines(c: Curve, a: real, b: real, minX: real, fmt: FloatFormat): seq<Section>
  {
    match c
    case Exponential =>
      [ExpEquation(Displayed(a, fmt), Displayed(b, fmt), Displayed(minX, fmt)),
       ExpSolveForX(Displayed(minX, fmt), Displayed(a, fmt), Displayed(b, fmt))]
    case Power =>
      [PowerEquation(Displayed(a, fmt), Displayed(b, fmt))] +
      (if b != 0.0 then [PowerSolveForX(Displayed(a, fmt), Displayed(b, fmt))] else [])
  }

  function R2Lines(c: Curve, r2: Option<real>, fmt: FloatFormat): seq<Section>
  {
    match r2
    case None => []
    case Some(v) => [FitR2(c, Displayed(v, fmt))]
  }

  /** A log fit from its line (slope b, intercept ln a) and its log-domain r²:
      no line stops with a note, and so does a = e^(ln a) equal to zero. */
  function LogFitSections(c: Curve, line: Option<Line>, minX: real, r2: Option<real>, fmt: FloatFormat,
                          exp: real -> real): seq<Section>
  {
    match line
    case None => [FlatX(c)]
    case Some(l) =>
      if exp(l.intercept) == 0.0 then [InvalidA(c)]
      else EquationLines(c, exp(l.intercept), l.slope, minX, fmt) + R2Lines(c, r2, fmt)
  }

  /** ln y against x - min x, after every y is found positive. */
  function ExponentialSections(x: seq<real>, y: seq<real>, fmt: FloatFormat, m: MathFns): seq<Section>
    requires |x| == |y| > 0 && IsSqrt(m.sqrt)
  {
    match FirstNonPositive(y)
    case Some(i) => [NotPositive(Exponential, YAxis, i, Displayed(y[i], fmt))]
    case None =>
      LogFitSections(Exponential, LeastSquares(Shift(x, MinOf(x)), Logs(y, m.ln)), MinOf(x),
                     LogR2(Shift(x, MinOf(x)), Logs(y, m.ln), m.sqrt), fmt, m.exp)
  }

  /** ln y against ln x, after every x and then every y is found positive. */
  function PowerSections(x: seq<real>, y: seq<real>, fmt: FloatFormat, m: MathFns): seq<Section>
    requires |x| == |y| > 0 && IsSqrt(m.sqrt)
  {
    match FirstNonPositive(x)
    case Some(i) => [NotPositive(Power, XAxis, i, Displayed(x[i], fmt))]
    case None =>
      match FirstNonPositive(y)
      case Some(i) => [NotPositive(Power, YAxis, i, Displayed(y[i], fmt))]
      case None =>
        // No shift for the power curve: EquationLines ignores minX for Power.
        LogFitSections(Power, LeastSquares(Logs(x, m.ln), Logs(y, m.ln)), 0.0,
                       LogR2(Logs(x, m.ln), Logs(y, m.ln), m.sqrt), fmt, m.exp)
  }

  function LinearSections(line: Option<Line>, fmt: FloatFormat): seq<Section>
  {
    match line
    case None => []
    case Some(l) => [Trendline(Displayed(l.slope, fmt), Displayed(l.intercept, fmt))]
  }

  function TrendSections(k: RegressionKind, x: seq<real>, y: seq<real>, fmt: FloatFormat, m: MathFns): seq<Section>
    requires |x| == |y| > 0 && IsSqrt(m.sqrt)
  {
    match k
    case QuadraticKind => QuadraticSections(QuadraticFit(MomentsOf(x, y)), fmt)
    case ExponentialKind => ExponentialSections(x, y, fmt, m)
    case PowerKind => PowerSections(x, y, fmt, m)
    case LinearKind => LinearSections(LeastSquares(x, y), fmt)
  }

  /** The whole report, or the error for empty or mismatched input: empty
      input is refused first, then x and y of different lengths, and any
      other input gets a report. */
  function ReportOf(x: seq<real>, y: seq<real>, regressionType: string, useRounding: bool, m: MathFns): (r: Result)
    requires IsSqrt(m.sqrt)
    ensures r == Err(EmptyInput) <==> |x| == 0 || |y| == 0
    ensures r == Err(LengthMismatch) <==> |x| > 0 && |y| > 0 && |x| != |y|
    ensures r.Ok? <==> |x| == |y| > 0
  {
    if |x| == 0 || |y| == 0 then Err(EmptyInput)
    else if |x| != |y| then Err(LengthMismatch)
    else
      var fmt := FloatFormat(useRounding, m.round);
      Ok(TableOf(x, y, fmt) + TotalsOf(x, y, fmt) + CorrelationSections(PearsonOf(x, y, m.sqrt)) +
         YSections(x, y, fmt, m.sqrt) + TrendSections(KindOf(regressionType), x, y, fmt, m))
  }
}
