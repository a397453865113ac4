# Regression calculator engine, modelled in Dafny

The regression calculator is a small Go web service. A browser sends it two
lists of numbers (x and y), a regression type (linear by default;
`quadratic`, `exponential` or `power` otherwise) and a rounding flag. The
engine, `calculateAndGenerateOutput`, then writes a plain-text report in six
parts:

1. A table of the pairs with x², y² and xy for each one.
2. The totals Σx, Σy, Σx², Σy², Σxy and n.
3. Pearson's r with r², its sign and a strength label. If either sample is
   constant, r is reported as undefined instead.
4. The mean and the population standard deviation of y, and the indices
   whose y lies more than two standard deviations from the mean.
5. The trend line for the chosen regression type, or a note saying why it
   cannot be computed:
   - **linear:** least squares;
   - **quadratic:** Cramer's rule on the 3×3 normal system, plus the vertex;
   - **exponential:** a line fitted to (x - min x, ln y);
   - **power:** a line fitted to (ln x, ln y).
6. For the two log fits, r² computed in the log domain.

Numbers are shown through `formatFloatSmart`. With rounding on, it rounds a
value to two decimals, half away from zero. With rounding off, it shows the
value as it is.

The model follows the engine's structure.

- **Report structure.** The report is a sequence of `Section` values
  (`Report.Section`), one per line the engine writes, with two exceptions:
  the section `Totals` stands for the six lines Σx, Σy, Σx², Σy², Σxy and n
  (sigma.go:58-63), and the section `YStats` for the two lines with the mean
  and the standard deviation of y (sigma.go:119-120). Each section carries
  its numbers as the engine would display them. The `strings.Builder` the
  engine appends to is the class `Sigma.Builder`, whose `sections` field
  each `Write` extends.
- **Imperative layer.** `Sigma` has one method per block of the engine: the
  accumulation loops, the table, the correlation, the y statistics and
  outliers, and the four fits. Each method is proved to append exactly the
  sections a pure function in `Report` describes.
  `Sigma.CalculateAndGenerateOutput` is proved equal to `Report.ReportOf`.
- **Pure layer.** The pure functions live in `Sums`, `Stats`,
  `Correlation`, `Outliers`, `Fit`, `Quadratic`, `LogFit`, `Scans` and
  `Format`. They define running sums exactly as the loops accumulate them:
  left to right, one term per index. The statistics are built on top of
  those sums. The lemmas there prove what the report means.
- **Report-level lemmas.** `Report.ReportOf` states when the input is
  refused. `Properties` restates the report's promises for the whole
  output: its layout, and what each section says.
- **Numbers.** float64 values are modelled as reals.
- **Math functions.** `math.Sqrt`, `math.Log`, `math.Exp` and `math.Round`
  are passed in as the record `Numerics.MathFns`. Only two laws are
  assumed about them:
  - the square root is the non-negative root (`Numerics.IsSqrt`);
  - for the lemmas about display, `Round` rounds half away from zero
    (`Format.IsRound`).

All `.dfy` files are verified together, with the options
`--resource-limit 2000000 --verification-time-limit 0`. The larger
polynomial identities are sized for that resource limit rather than for
the default time limit.

## Model

| member | source | states |
|---|---|---|
| Format.RoundTiesAway | sigma.go:16 | math.Round sends k + 0.5 to k + 1 for k >= 0 and -(k + 0.5) to -(k + 1): ties go away from zero |
| Format.DisplayedError | sigma.go:14-21 | without rounding a value is shown unchanged; with rounding the shown value is within 0.005 of the true one |
| Format.DisplayedHundredths | sigma.go:14-21 | a value that already has at most two decimals is shown unchanged |
| Format.DisplayedIdempotent | sigma.go:14-21 | rounding an already displayed value again changes nothing |
| Format.DisplayedExamples | sigma.go:14-21 | 2.345 is shown as 2.35 and -2.345 as -2.35 (half away from zero, symmetric in sign) |
| Sigma.Builder.constructor | sigma.go:24 | a new output builder holds no text |
| Sigma.Builder.Write | sigma.go:46 | writing appends exactly one section at the end and keeps everything written before |
| Sigma.Accumulate | sigma.go:33-44 | after the loop the five accumulators hold Σx, Σy, Σx², Σy² and Σxy over all n pairs |
| Sigma.WriteTable | sigma.go:46-63 | given the running sums, appends the header, then one row per index with the displayed x, y, x², y² and xy, then the totals section with the displayed Σx, Σy, Σx², Σy², Σxy and n |
| Sigma.CrossTerm | sigma.go:65-67 | from the running sums Σuv, Σu and Σv of samples u and v, the result is the co-spread of u and v (the numerator of r), and the spread of u (termX, termY) when v is u |
| Sigma.WriteCorrelation | sigma.go:68-98 | appends the correlation lines for r = numerator / √(termX·termY), or the "undefined" line when termX·termY is zero |
| Sigma.WriteR | sigma.go:71-95 | for a defined r, appends r, r², the sign line and the strength line, in that order |
| Sigma.WriteSign | sigma.go:75-81 | appends "positive" for r > 0, "negative" for r < 0, and "no pos/neg" otherwise |
| Sigma.WriteStrength | sigma.go:83-95 | appends the first matching label among perfect (abs r = 1), strong (>= 0.7), moderate (>= 0.5), weak (>= 0.3), none |
| Sigma.MeanAndDeviation | sigma.go:100-109 | returns the mean of y and the square root of the population variance (divided by n) |
| Sigma.FindOutliers | sigma.go:111-117 | returns, in increasing order, exactly the indices whose abs(y - mean) exceeds 2·stdDev |
| Sigma.WriteOutliers | sigma.go:121-128 | appends "no outliers" when the list is empty; otherwise the header and one line per flagged index with its displayed x and y |
| Sigma.WriteYStats | sigma.go:100-128 | appends the displayed mean and standard deviation of y, followed by the outlier lines |
| Sigma.SolveLine | sigma.go:312-314 | returns no line when termX is zero; otherwise slope = numerator / termX and intercept = (Σy - slope·Σx) / n |
| Sigma.WriteLinear | sigma.go:311-317 | appends the displayed trend line when there is one, and nothing otherwise |
| Sigma.HigherSums | sigma.go:131-141 | after the loop the accumulators hold Σx³, Σx⁴ and Σx²y |
| Sigma.SolveQuadratic | sigma.go:143-158 | returns no parabola when the determinant is zero, otherwise the Cramer quotients of the engine's three numerators |
| Sigma.WriteQuadraticLines | sigma.go:160-174 | appends the determinant-zero note, or the displayed equation followed by the vertex line when a ≠ 0 (see Findings) |
| Sigma.WriteQuadratic | sigma.go:130-175 | appends the quadratic sections for the fit of the moments of x and y |
| Sigma.FindMinX | sigma.go:185-190 | returns the smallest x |
| Sigma.ShiftBy | sigma.go:184-193 | returns a new array holding x[i] - minX for every i |
| Sigma.LogsOf | sigma.go:195-198 | returns a new array holding ln y[i] for every i |
| Sigma.LogPairs | sigma.go:258-263 | returns two new, distinct arrays holding ln x[i] and ln y[i] |
| Sigma.LogSums | sigma.go:200-209 | returns Σu, Σv, Σu² and Σuv of the two arrays |
| Sigma.SumOfSquares | sigma.go:231-234 | returns Σv² of the array |
| Sigma.SolveR2 | sigma.go:236-243 | returns rLn² only when termX·termLnY > 0, where rLn = numeratorLn / √(termX·termLnY) |
| Sigma.WriteEquations | sigma.go:225-229 | appends the exponential equation and its solve-for-x line, or the power equation and its solve-for-x line only when b ≠ 0 |
| Sigma.WriteLogFit | sigma.go:211-243 | appends the flat-x note when termX is zero, the invalid-a note when e^lnA is zero, and otherwise the equations followed by the optional r² line |
| Sigma.WriteExponential | sigma.go:176-243 | appends the not-positive note for the first y <= 0; otherwise it appends the log fit of (x - min x, ln y) |
| Sigma.WritePower | sigma.go:244-310 | checks x before y and appends the not-positive note for the first non-positive value; otherwise it appends the log fit of (ln x, ln y) |
| Sigma.WriteTrend | sigma.go:130-318 | dispatches on the regression type: quadratic, exponential and power by exact name, any other string linear |
| Sigma.CalculateAndGenerateOutput | sigma.go:23-321 | the result is the report ReportOf describes: an error for empty or mismatched input, else table, totals, correlation, y statistics, trend |
| Report.KindOf | sigma.go:130-311 | the kind is quadratic, exponential or power exactly when the type string is that word; every other string selects linear |
| Report.RowsToAt | sigma.go:47-56 | row i of the table shows the displayed values of pair i |
| Report.OutlierRowsAt | sigma.go:123-125 | outlier line j shows index o[j] and the displayed x and y at that index |
| Report.ReportOf | sigma.go:26-31 | the empty-input error exactly when x or y is empty; the length error exactly when both are non-empty and the lengths differ; a report exactly when the lengths agree and are positive |
| Properties.ReportParts | sigma.go:46-318 | the report is n + 2 sections of table and totals followed by the correlation, y-statistics and trend sections, each part at its own offset; an unknown type ends with the straight-line section |
| Properties.TableLines | sigma.go:46-63 | the first n + 2 sections are the header, row i for pair i, and the totals section holding the displayed sums with n |
| Properties.CorrelationLines | sigma.go:65-98 | a single "undefined" line exactly when x or y is constant; otherwise four lines: r in [-1, 1], r², the sign of the co-spread, and "perfect" exactly when the Cauchy–Schwarz bound is tight |
| Properties.LineIsPerfect | sigma.go:70-95 | samples on a line y = a·x + b with a ≠ 0 and x not constant have a defined r equal to 1 or -1 (the sign of a), labelled perfect, positive exactly when a > 0 |
| Properties.PerfectExample | sigma.go:70-95 | x = 1, 2, 3 and y = 2, 4, 6 give the lines r = 1, r² = 1, positive, perfect |
| Properties.YStatsLines | sigma.go:100-128 | the first section shows the displayed mean and standard deviation; "no outliers" exactly when none are flagged, and always for a constant y |
| Properties.OutlierLines | sigma.go:121-125 | with outliers, one header and one line per flagged index, each index within range and showing that pair's displayed values |
| Properties.LinearTrend | sigma.go:311-317 | no trend line exactly when all x are equal; otherwise the line solves the normal equations and passes through the means |
| Properties.QuadraticTrend | sigma.go:143-174 | the determinant-zero note exactly when the determinant is zero; otherwise the displayed equation followed by the vertex lines |
| Properties.VertexLines | sigma.go:160-172 | a vertex line exactly when a ≠ 0, showing (-b/2a, value there) and "maximum" exactly when a < 0 |
| Properties.LogFitLines | sigma.go:225-310 | exponential: equation, then solve-for-x; power: equation, with solve-for-x exactly when b ≠ 0; an r² line at the end exactly when one is defined |
| Properties.ExponentialTrend | sigma.go:176-243 | the first non-positive y stops the fit; otherwise the flat note exactly when all x are equal, and the equation shows min x, a = e^intercept and b = the slope of ln y against x - min x; the r² line appears exactly when r of (x, ln y) is defined, showing its square, in [0, 1] |
| Properties.PowerTrend | sigma.go:244-310 | the x check precedes the y check; the flat note exactly when all ln x are equal; the equation shows a = e^intercept and b = the slope of ln y against ln x; the r² line appears exactly when r of (ln x, ln y) is defined, showing its square, in [0, 1] |
| Stats.SpreadZeroIffAllEqual | sigma.go:211-213 | termX is zero exactly when all x values are equal (the "all X values may be the same" note) |
| Stats.SpreadNonNegative | sigma.go:66-67 | termX and termY are never negative |
| Stats.CoSpreadBound | sigma.go:65-68 | numerator² <= termX·termY (Cauchy–Schwarz), so the root in r is real |
| Stats.VarianceZeroIffAllEqual | sigma.go:106-109 | the population variance is zero exactly when y is constant |
| Correlation.UndefinedIffConstant | sigma.go:70-97 | r is undefined exactly when x or y is constant |
| Correlation.PearsonRange | sigma.go:71-95 | a defined r lies in [-1, 1], has the sign of the numerator, and abs r = 1 exactly when the Cauchy–Schwarz bound is tight |
| Correlation.SignOf | sigma.go:75-81 | positive exactly for r > 0, negative exactly for r < 0, neutral exactly for r = 0 |
| Correlation.StrengthBands | sigma.go:83-95 | for r in [-1, 1] the labels are disjoint bands of abs r: 1, [0.7, 1), [0.5, 0.7), [0.3, 0.5), below 0.3 |
| Correlation.LabelsSymmetric | sigma.go:75-95 | negating r keeps the strength and swaps positive with negative |
| Outliers.OutliersExact | sigma.go:111-117 | an index is listed exactly when abs(y - mean) > 2·stdDev, and the list is strictly increasing |
| Outliers.OutlierSquaredForm | sigma.go:114 | the outlier test is equivalent to (y - mean)² > 4·variance |
| Outliers.ConstantHasNoOutliers | sigma.go:106-117 | a constant y has no outliers |
| Outliers.OutlierCountBound | sigma.go:111-117 | fewer than a quarter of the samples can be outliers (Chebyshev at two standard deviations) |
| Fit.LeastSquaresDefined | sigma.go:312 | the linear fit exists exactly when x is not constant |
| Fit.NormalEquations | sigma.go:312-314 | the fitted line solves n·intercept + slope·Σx = Σy and intercept·Σx + slope·Σx² = Σxy |
| Fit.ThroughMeans | sigma.go:312-314 | the fitted line passes through (mean x, mean y) |
| Fit.RecoversLine | sigma.go:312-314 | data lying exactly on y = a·x + b, with x not constant, yields exactly slope a and intercept b |
| Fit.CoSpreadOfLine | sigma.go:65-66 | for data on y = a·x + b the numerator of r is a times termX |
| Fit.SpreadOfLine | sigma.go:65-67 | for data on y = a·x + b, termY is a times the numerator of r (so a² times termX) |
| Quadratic.CramerSolves | sigma.go:143-158 | the computed a, b and c solve the three normal equations of the quadratic least-squares system |
| Quadratic.RecoversParabola | sigma.go:143-158 | data lying exactly on a parabola, with a non-zero determinant, yields exactly that parabola |
| Quadratic.ExtremumOf | sigma.go:163-166 | the vertex is labelled "maximum" exactly when a < 0 |
| Quadratic.VertexOf | sigma.go:160-161 | a vertex exists exactly when a ≠ 0 |
| Quadratic.VertexIsExtremum | sigma.go:160-166 | the parabola's value minus the vertex value is a·(t - vx)², so a "minimum" is the lowest point and a "maximum" the highest |
| Quadratic.VertexAsWrittenBreaks | sigma.go:160-161 | the unguarded vertex is non-finite exactly when a = 0, and otherwise equals VertexOf |
| Quadratic.LineDataBreaksVertex | sigma.go:143-161 | straight-line data with a non-zero determinant is fitted with a = 0, so the unguarded vertex is non-finite |
| Quadratic.LineDataExample | sigma.go:143-161 | x = 1, 2, 3 and y = 2, 4, 6 give determinant 4, the fit 0·x² + 2x + 0, and a non-finite vertex |
| Scans.RunningMin | sigma.go:185-190 | after k steps minX is at most x[0] and each of the first k values, and it is one of the values of x |
| Scans.MinOfIsMinimum | sigma.go:185-190 | the scan's minX is an element of x that no element is below |
| Scans.MinOfUnique | sigma.go:185-190 | any element that no element is below is the one the scan finds |
| Scans.FirstNonPositiveFrom | sigma.go:245-256 | the index found holds a value <= 0, every earlier value is positive, and none is found exactly when all values are positive |
| Scans.FirstNonPositiveIs | sigma.go:177-182 | the loop stops at the first non-positive value, and only there |
| LogFit.ShiftedFromMin | sigma.go:184-193 | every shifted x is >= 0 and at least one is 0 |
| LogFit.ShiftKeepsSpreads | sigma.go:211-236 | shifting x by any constant leaves termX and the numerator of r unchanged |
| LogFit.ShiftKeepsPearson | sigma.go:236-241 | shifting x by any constant leaves Pearson's r of x and ln y unchanged, so the exponential fit's r² is that of the unshifted x |
| LogFit.R2FromIsPearsonSquared | sigma.go:236-243 | when it exists, the log-domain r² is the square of Pearson's r of the same three numbers |
| LogFit.LogR2IsPearsonSquared | sigma.go:298-310 | the log fit's r² exists exactly when Pearson's r of the log data is defined; it then equals r² and lies in [0, 1] |

## Left out

- The text itself is left out. This covers `fmt.Sprintf` padding (`%-10s`),
  `%.4f` for r and r², and `strconv.FormatFloat`'s shortest decimal form.
  Every line is a `Section` value carrying its displayed numbers.
  `formatFloatSmart` is modelled as the number it displays
  (`Format.Displayed`).
- float64 rounding error is not modelled. Values are reals, so sums,
  products and quotients are exact, and the loops' order of accumulation
  cannot change a result.
- NaN and ±Inf are not modelled, except in the vertex finding below.
  - The exponential and power fits check `a == 0 || IsNaN(a) || IsInf(a)`
    (sigma.go:220,285). Only the `a == 0` case is modelled: `exp` is a free
    parameter, so that branch stays reachable, as float underflow makes it
    in Go.
- `math.Log` and `math.Exp` are parameters with no laws. The model
  therefore says nothing about the exponential curve passing through the
  data, only about the line fitted to the logarithms.
- `math.Round` is a parameter as well. Only the lemmas about display
  require it to round half away from zero (`Format.IsRound`).
- The HTTP handler, JSON decoding, parsing of the whitespace-separated input,
  the `main` function and the browser script front.js are not part of
  this model. The engine receives x and y already parsed.
- The power fit sums its four accumulators in the order Σln x, Σln y,
  Σln x·ln y, Σ(ln x)². The shared `Sigma.LogSums` sums them in the same
  order as the exponential loop. On reals the values are identical.
- `Sigma.WriteLogFit` is shared by the two log fits. The Go code repeats
  the tail (flat-x guard, coefficient, equations, r²) once per fit, with
  different messages. The messages are distinguished by the `Curve` tag.
- `LogFit.ShiftKeepsSpreads` shows that subtracting min x leaves termX and
  the numerator unchanged. The model does not prove the same for the
  exponential fit's slope against the unshifted x. It follows from the
  two, but it is not stated as a lemma.

## Findings

| source | as written | input that shows it | evidently intended | confidence | as-written member | corrected member |
|---|---|---|---|---|---|---|
| sigma.go:160-161 | vertexX := -b / (2·a) with no check that a ≠ 0, although only det ≠ 0 is checked; for data on a straight line the fit has a = 0 and the vertex is ±Inf/NaN, non-finite (for the input below a is +0, so vertexX is -Inf and vertexY is NaN) | x = 1, 2, 3 and y = 2, 4, 6 with type "quadratic": det = 4, a = 0, b = 2, c = 0 | report the equation and leave the vertex out when a = 0 (the curve is a line and has no vertex) | not executed | Quadratic.VertexAsWritten, Quadratic.VertexAsWrittenBreaks, Quadratic.LineDataBreaksVertex, Quadratic.LineDataExample | Quadratic.VertexOf, Quadratic.VertexIsExtremum, Report.VertexSections, Sigma.WriteQuadraticLines, Properties.VertexLines |

The rest of the model uses the corrected behaviour: when the fitted a is
zero, the quadratic report has the equation line and no vertex line.
