/** The least-squares fits the engine reports: the straight line (also the
    core of the exponential and power fits, which fit a line to logarithms),
    the quadratic solved by Cramer's rule, and its vertex. */
module Fit {
  import opened Sums
  import opened Stats
  import opened Outcomes

  datatype Line = Line(slope: real, intercept: real)

  /** The engine's line from its running sums: slope = numerator / termX and
      intercept = (Σv - slope·Σu) / n; there is no line when termX is zero. */
  function LineFrom(n: nat, su: real, sv: real, termX: real, numerator: real): Option<Line>
    requires n > 0
  {
    if termX == 0.0 then None
    else
      var slope := numerator / termX;
      Some(Line(slope, (sv - slope * su) / (n as real)))
  }

  /** The engine's two steps, slope first and then the intercept from it,
      give the line LineFrom describes. */
  lemma LineFromSteps(n: nat, su: real, sv: real, termX: real, numerator: real, slope: real, intercept: real)
    requires n > 0 && termX != 0.0 && slope == numerator / termX && intercept == (sv - slope * su) / (n as real)
    ensures LineFrom(n, su, sv, termX, numerator) == Some(Line(slope, intercept))
  {
    var l := LineFrom(n, su, sv, termX, numerator);
    assert l.Some? && l.value.slope == slope;
    assert l.value.intercept == intercept;
  }

  /** The least-squares line of v against u. */
  function LeastSquares(u: seq<real>, v: seq<real>): Option<Line>
    requires |u| == |v| > 0
  {
    LineFrom(|u|, SumTo(u, |u|), SumTo(v, |u|), Spread(u), CoSpread(u, v))
  }

  /** A line exists exactly when the u values are not all equal. */
  lemma LeastSquaresDefined(u: seq<real>, v: seq<real>)
    requires |u| == |v| > 0
    ensures LeastSquares(u, v).Some? <==> !AllEqual(u)
  {
    SpreadZeroIffAllEqual(u);
  }

  /** How far the line's equation c0·intercept + c1·slope = rhs is from holding. */
  function Residual(l: Line, c0: real, c1: real, rhs: real): real
  {
    c0 * l.intercept + c1 * l.slope - rhs
  }

  lemma NormalAlgebra(k: nat, su: real, sv: real, suu: real, suv: real, q: real, p: real, l: Line)
    requires k > 0 && LineFrom(k, su, sv, q, p) == Some(l)
    requires q == Cross(k as real, suu, su, su) && p == Cross(k as real, suv, su, sv)
    ensures Residual(l, k as real, su, sv) == 0.0
    ensures Residual(l, su, suu, suv) == 0.0
  {
    var n, slope, intercept := k as real, l.slope, l.intercept;
    assert slope * q == p;
    assert n * intercept == sv - slope * su;
    assert n * (intercept * su + slope * suu) == (sv - slope * su) * su + slope * (n * suu);
    assert n * (intercept * su + slope * suu) == n * suv;
  }

  /** The line solves the two normal equations of least squares:
      n·intercept + slope·Σu = Σv and intercept·Σu + slope·Σu² = Σuv;
      the two equations that define the least-squares line. */
  lemma NormalEquations(u: seq<real>, v: seq<real>, l: Line)
    requires |u| == |v| > 0 && LeastSquares(u, v) == Some(l)
    ensures Residual(l, |u| as real, SumTo(u, |u|), SumTo(v, |u|)) == 0.0
    ensures Residual(l, SumTo(u, |u|), DotTo(u, u, |u|), DotTo(u, v, |u|)) == 0.0
  {
    var n := |u|;
    NormalAlgebra(n, SumTo(u, n), SumTo(v, n), DotTo(u, u, n), DotTo(u, v, n),
                  Spread(u), CoSpread(u, v), l);
  }

  /** The line passes through the point of means. */
  lemma ThroughMeans(u: seq<real>, v: seq<real>, l: Line)
    requires |u| == |v| > 0 && LeastSquares(u, v) == Some(l)
    ensures Residual(l, 1.0, Mean(u), Mean(v)) == 0.0
  {
    var n := |u|;
    NormalEquations(u, v, l);
    MeansLine(n as real, SumTo(u, n), SumTo(v, n), Mean(u), Mean(v), l);
  }

  lemma MeansLine(n: real, su: real, sv: real, mu: real, mv: real, l: Line)
    requires n > 0.0 && Residual(l, n, su, sv) == 0.0 && mu == su / n && mv == sv / n
    ensures Residual(l, 1.0, mu, mv) == 0.0
  {
    var slope, intercept := l.slope, l.intercept;
    assert n * mu == su;
    assert n * (intercept + slope * mu) == n * mv;
  }

  // ---------------------------------------------------------------------
  // Exact lines are recovered

  /** a·x + b·y. */
  function Comb(a: real, x: real, b: real, y: real): real
  {
    a * x + b * y
  }

  lemma LineTermSum(vi: real, ui: real, a: real, b: real, s0: real, u0: real, k: real, s: real, us: real)
    requires vi == a * ui + b && s0 == Comb(a, u0, b, k) && s == s0 + vi && us == u0 + ui
    ensures s == Comb(a, us, b, k + 1.0)
  {
  }

  lemma SumOfLineStep(u: seq<real>, v: seq<real>, a: real, b: real, k: nat)
    requires 0 < k <= |u| == |v| && v[k - 1] == a * u[k - 1] + b
    ensures SumTo(v, k - 1) == Comb(a, SumTo(u, k - 1), b, (k - 1) as real)
        ==> SumTo(v, k) == Comb(a, SumTo(u, k), b, k as real)
  {
    if SumTo(v, k - 1) == Comb(a, SumTo(u, k - 1), b, (k - 1) as real) {
      LineTermSum(v[k - 1], u[k - 1], a, b, SumTo(v, k - 1), SumTo(u, k - 1), (k - 1) as real,
                  SumTo(v, k), SumTo(u, k));
    }
  }

  /** On v = a·u + b, Σv = a·Σu + k·b. */
  lemma {:induction false} SumOfLine(u: seq<real>, v: seq<real>, a: real, b: real, k: nat)
    requires k <= |u| == |v| && forall i :: 0 <= i < |u| ==> v[i] == a * u[i] + b
    ensures SumTo(v, k) == Comb(a, SumTo(u, k), b, k as real)
  {
    if k > 0 {
      SumOfLineStep(u, v, a, b, k);
      SumOfLine(u, v, a, b, k - 1);
    }
  }

  lemma LineTermDot(vi: real, ui: real, a: real, b: real, d0: real, q0: real, s0: real,
                    d: real, q: real, s: real)
    requires vi == a * ui + b && d0 == Comb(a, q0, b, s0)
    requires d == d0 + ui * vi && q == q0 + ui * ui && s == s0 + ui
    ensures d == Comb(a, q, b, s)
  {
    assert ui * vi == a * (ui * ui) + b * ui;
  }

  lemma DotOfLineStep(u: seq<real>, v: seq<real>, a: real, b: real, k: nat)
    requires 0 < k <= |u| == |v| && v[k - 1] == a * u[k - 1] + b
    ensures DotTo(u, v, k - 1) == Comb(a, DotTo(u, u, k - 1), b, SumTo(u, k - 1))
        ==> DotTo(u, v, k) == Comb(a, DotTo(u, u, k), b, SumTo(u, k))
  {
    if DotTo(u, v, k - 1) == Comb(a, DotTo(u, u, k - 1), b, SumTo(u, k - 1)) {
      LineTermDot(v[k - 1], u[k - 1], a, b, DotTo(u, v, k - 1), DotTo(u, u, k - 1), SumTo(u, k - 1),
                  DotTo(u, v, k), DotTo(u, u, k), SumTo(u, k));
    }
  }

  /** On v = a·u + b, Σuv = a·Σu² + b·Σu. */
  lemma {:induction false} DotOfLine(u: seq<real>, v: seq<real>, a: real, b: real, k: nat)
    requires k <= |u| == |v| && forall i :: 0 <= i < |u| ==> v[i] == a * u[i] + b
    ensures DotTo(u, v, k) == Comb(a, DotTo(u, u, k), b, SumTo(u, k))
  {
    if k > 0 {
      DotOfLineStep(u, v, a, b, k);
      DotOfLine(u, v, a, b, k - 1);
    }
  }

  lemma RecoverAlgebra(k: nat, su: real, suu: real, sv: real, suv: real, a: real, b: real, q: real, p: real)
    requires k > 0 && q != 0.0
    requires sv == Comb(a, su, b, k as real) && suv == Comb(a, suu, b, su)
    requires q == Cross(k as real, suu, su, su) && p == Cross(k as real, suv, su, sv)
    ensures LineFrom(k, su, sv, q, p) == Some(Line(a, b))
  {
    var n := k as real;
    assert p == a * q by {
      assert p == n * (a * suu + b * su) - su * (a * su + n * b);
    }
    SlopeIntercept(n, su, sv, q, p, a, b);
    LineFromIs(k, su, sv, q, p, a, b);
  }

  lemma LineFromIs(k: nat, su: real, sv: real, q: real, p: real, a: real, b: real)
    requires k > 0 && q != 0.0 && p / q == a && (sv - (p / q) * su) / (k as real) == b
    ensures LineFrom(k, su, sv, q, p) == Some(Line(a, b))
  {
  }

  lemma SlopeIntercept(n: real, su: real, sv: real, q: real, p: real, a: real, b: real)
    requires n > 0.0 && q != 0.0 && p == a * q && sv == a * su + n * b
    ensures p / q == a && (sv - (p / q) * su) / n == b
  {
    assert sv - a * su == n * b;
  }

  /** Data lying exactly on a line (with u not constant) is fitted by that line. */
  lemma RecoversLine(u: seq<real>, v: seq<real>, a: real, b: real)
    requires |u| == |v| > 0 && !AllEqual(u)
    requires forall i :: 0 <= i < |u| ==> v[i] == a * u[i] + b
    ensures LeastSquares(u, v) == Some(Line(a, b))
  {
    var n := |u|;
    SpreadZeroIffAllEqual(u);
    SumOfLine(u, v, a, b, n);
    DotOfLine(u, v, a, b, n);
    RecoverAlgebra(n, SumTo(u, n), DotTo(u, u, n), SumTo(v, n), DotTo(u, v, n), a, b,
                   Spread(u), CoSpread(u, v));
  }

  // ---------------------------------------------------------------------
  // The spreads of data lying on a line

  lemma LineTermSquare(vi: real, ui: real, a: real, b: real, d0: real, p0: real, s0: real,
                       d: real, p: real, s: real)
    requires vi == a * ui + b && d0 == Comb(a, p0, b, s0)
    requires d == d0 + vi * vi && p == p0 + ui * vi && s == s0 + vi
    ensures d == Comb(a, p, b, s)
  {
    assert vi * vi == a * (ui * vi) + b * vi;
  }

  lemma SquaresOfLineStep(u: seq<real>, v: seq<real>, a: real, b: real, k: nat)
    requires 0 < k <= |u| == |v| && v[k - 1] == a * u[k - 1] + b
    ensures DotTo(v, v, k - 1) == Comb(a, DotTo(u, v, k - 1), b, SumTo(v, k - 1))
        ==> DotTo(v, v, k) == Comb(a, DotTo(u, v, k), b, SumTo(v, k))
  {
    if DotTo(v, v, k - 1) == Comb(a, DotTo(u, v, k - 1), b, SumTo(v, k - 1)) {
      LineTermSquare(v[k - 1], u[k - 1], a, b, DotTo(v, v, k - 1), DotTo(u, v, k - 1), SumTo(v, k - 1),
                     DotTo(v, v, k), DotTo(u, v, k), SumTo(v, k));
    }
  }

  /** On v = a·u + b, Σv² = a·Σuv + b·Σv. */
  lemma {:induction false} SquaresOfLine(u: seq<real>, v: seq<real>, a: real, b: real, k: nat)
    requires k <= |u| == |v| && forall i :: 0 <= i < |u| ==> v[i] == a * u[i] + b
    ensures DotTo(v, v, k) == Comb(a, DotTo(u, v, k), b, SumTo(v, k))
  {
    if k > 0 {
      SquaresOfLineStep(u, v, a, b, k);
      SquaresOfLine(u, v, a, b, k - 1);
    }
  }

  lemma CoSpreadAlgebra(k: nat, q: real, s: real, sv: real, suv: real, a: real, b: real, tx: real, num: real)
    requires sv == Comb(a, s, b, k as real) && suv == Comb(a, q, b, s)
    requires tx == Cross(k as real, q, s, s) && num == Cross(k as real, suv, s, sv)
    ensures Scaled(num, a, tx)
  {
  }

  lemma SpreadAlgebra(k: nat, s: real, sv: real, suv: real, svv: real, a: real, b: real, ty: real, num: real)
    requires sv == Comb(a, s, b, k as real) && svv == Comb(a, suv, b, sv)
    requires ty == Cross(k as real, svv, sv, sv) && num == Cross(k as real, suv, s, sv)
    ensures Scaled(ty, a, num)
  {
    assert sv * sv == a * (s * sv) + b * ((k as real) * sv);
  }

  /** On v = a·u + b the correlation numerator is a times termX of u. */
  lemma CoSpreadOfLine(u: seq<real>, v: seq<real>, a: real, b: real)
    requires |u| == |v| && forall i :: 0 <= i < |u| ==> v[i] == a * u[i] + b
    ensures Scaled(CoSpread(u, v), a, Spread(u))
  {
    var n := |u|;
    SumOfLine(u, v, a, b, n);
    DotOfLine(u, v, a, b, n);
    CoSpreadAlgebra(n, DotTo(u, u, n), SumTo(u, n), SumTo(v, n), DotTo(u, v, n), a, b,
                    Spread(u), CoSpread(u, v));
  }

  /** On v = a·u + b, termY of v is a times the correlation numerator. */
  lemma SpreadOfLine(u: seq<real>, v: seq<real>, a: real, b: real)
    requires |u| == |v| && forall i :: 0 <= i < |u| ==> v[i] == a * u[i] + b
    ensures Scaled(Spread(v), a, CoSpread(u, v))
  {
    var n := |u|;
    SumOfLine(u, v, a, b, n);
    SquaresOfLine(u, v, a, b, n);
    SpreadAlgebra(n, SumTo(u, n), SumTo(v, n), DotTo(u, v, n), DotTo(v, v, n), a, b,
                  Spread(v), CoSpread(u, v));
  }
}
