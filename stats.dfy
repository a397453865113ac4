/** Descriptive statistics of a sample, as the engine forms them from its
    running sums: the spread terms n·Σss - (Σs)² behind Pearson's r and the
    least-squares slope, the mean, and the population variance. */
module Stats {
  import opened Sums

  /** n·Σs² - (Σs)²: `termX` (and `termY`) of the engine. */
  function Spread(s: seq<real>): real
  {
    Cross(|s| as real, DotTo(s, s, |s|), SumTo(s, |s|), SumTo(s, |s|))
  }

  /** n·Σuv - Σu·Σv: the correlation `numerator`. */
  function CoSpread(u: seq<real>, v: seq<real>): real
    requires |u| == |v|
  {
    Cross(|u| as real, DotTo(u, v, |u|), SumTo(u, |u|), SumTo(v, |u|))
  }

  function Mean(s: seq<real>): real
    requires |s| > 0
  {
    SumTo(s, |s|) / (|s| as real)
  }

  /** Σ (u[i] - mean u)·(v[i] - mean v). */
  function CentredDot(u: seq<real>, v: seq<real>): real
    requires |u| == |v| > 0
  {
    DevTo(u, v, Mean(u), Mean(v), |u|)
  }

  /** Population variance: the squared deviations from the mean, divided by
      n and not by n - 1. */
  function Variance(s: seq<real>): real
    requires |s| > 0
  {
    CentredDot(s, s) / (|s| as real)
  }

  /** Every element equals every other one. */
  predicate AllEqual(s: seq<real>)
  {
    forall i, j :: 0 <= i < |s| && 0 <= j < |s| ==> s[i] == s[j]
  }

  lemma MeanTimesCount(s: seq<real>, n: nat)
    requires n == |s| > 0
    ensures (n as real) * Mean(s) == SumTo(s, n)
  {
  }

  /** The mean of equal elements is that element. */
  lemma MeanOfEqual(s: seq<real>)
    requires |s| > 0 && AllEqual(s)
    ensures Mean(s) == s[0]
  {
    SumOfConstant(s, s[0], |s|);
    Quotient(SumTo(s, |s|), |s| as real, s[0]);
  }

  lemma Quotient(a: real, n: real, c: real)
    requires n > 0.0 && a == n * c
    ensures a / n == c
  {
  }

  lemma CentringAlgebra(n: real, d: real, su: real, sv: real, mu: real, mv: real, e: real, p: real)
    requires n * mu == su && n * mv == sv
    requires e == Expanded(d, su, sv, mu, mv, n)
    requires p == Cross(n, d, su, sv)
    ensures p == n * e
  {
    assert n * (mv * su) == sv * su;
    assert n * (mu * sv) == su * sv;
    assert n * (n * mu * mv) == (n * mu) * (n * mv);
  }

  /** The co-spread is n times the sum of products of deviations from the means. */
  lemma CoSpreadCentred(u: seq<real>, v: seq<real>)
    requires |u| == |v| > 0
    ensures CoSpread(u, v) == (|u| as real) * CentredDot(u, v)
  {
    CentredExpanded(u, v);
    MeanTimesCount(u, |u|);
    MeanTimesCount(v, |u|);
    CentringAlgebra(|u| as real, DotTo(u, v, |u|), SumTo(u, |u|), SumTo(v, |u|), Mean(u), Mean(v),
                    CentredDot(u, v), CoSpread(u, v));
  }

  lemma CentredExpanded(u: seq<real>, v: seq<real>)
    requires |u| == |v| > 0
    ensures CentredDot(u, v) == Expanded(DotTo(u, v, |u|), SumTo(u, |u|), SumTo(v, |u|), Mean(u), Mean(v), |u| as real)
  {
    DevExpand(u, v, Mean(u), Mean(v), |u|);
  }

  /** The spread is n times the sum of squared deviations from the mean. */
  lemma SpreadCentred(s: seq<real>)
    requires |s| > 0
    ensures Spread(s) == (|s| as real) * CentredDot(s, s)
  {
    CoSpreadCentred(s, s);
  }

  /** n·Σs² - (Σs)² is never negative. */
  lemma SpreadNonNegative(s: seq<real>)
    ensures Spread(s) >= 0.0
  {
    if |s| > 0 {
      SpreadCentred(s);
      DevSelfNonNegative(s, Mean(s), |s|);
      MulNonNegative(|s| as real, CentredDot(s, s), Spread(s));
    }
  }

  lemma ZeroFactor(n: real, d: real, p: real)
    requires n > 0.0 && p == n * d
    ensures p == 0.0 <==> d == 0.0
  {
    if d > 0.0 { MulPositive(n, d, p); }
    if d < 0.0 { MulPositive(n, -d, -p); }
  }

  /** The spread is zero exactly when all elements are equal: the engine's
      "all X values may be the same". */
  lemma SpreadZeroIffAllEqual(s: seq<real>)
    requires |s| > 0
    ensures Spread(s) == 0.0 <==> AllEqual(s)
  {
    var m := Mean(s);
    SpreadCentred(s);
    ZeroFactor(|s| as real, CentredDot(s, s), Spread(s));
    DevSelfZero(s, m, |s|);
    if AllEqual(s) {
      MeanOfEqual(s);
    }
  }

  /** Cauchy–Schwarz for the deviations from the means. */
  lemma CentredCauchySchwarz(u: seq<real>, v: seq<real>)
    requires |u| == |v| > 0
    ensures Slack(CentredDot(u, v), CentredDot(u, u), CentredDot(v, v)) >= 0.0
  {
    CauchySchwarz(u, v, Mean(u), Mean(v), |u|);
  }

  /** Scaling p, a and b by n keeps p² <= a·b. */
  lemma ScaledBound(n: real, d: real, e: real, f: real, p: real, a: real, b: real)
    requires Slack(d, e, f) >= 0.0 && Scaled(p, n, d) && Scaled(a, n, e) && Scaled(b, n, f)
    ensures Slack(p, a, b) >= 0.0
  {
    SqNonNegative(n);
    assert Sq(p) == Sq(n) * Sq(d);
    assert a * b == Sq(n) * (e * f);
    MulNonNegative(Sq(n), e * f - Sq(d), Sq(n) * (e * f - Sq(d)));
  }

  /** p = n·d, as one fact the solver matches whole. */
  predicate Scaled(p: real, n: real, d: real)
  {
    p == n * d
  }

  lemma CentredForms(u: seq<real>, v: seq<real>)
    requires |u| == |v| > 0
    ensures Scaled(CoSpread(u, v), |u| as real, CentredDot(u, v))
    ensures Scaled(Spread(u), |u| as real, CentredDot(u, u))
    ensures Scaled(Spread(v), |u| as real, CentredDot(v, v))
  {
    CoSpreadCentred(u, v);
    SpreadCentred(u);
    SpreadCentred(v);
  }

  /** (n·Σuv - ΣuΣv)² <= (n·Σu² - (Σu)²)·(n·Σv² - (Σv)²). */
  lemma CoSpreadBound(u: seq<real>, v: seq<real>)
    requires |u| == |v|
    ensures Slack(CoSpread(u, v), Spread(u), Spread(v)) >= 0.0
  {
    if |u| > 0 {
      CentredForms(u, v);
      CentredCauchySchwarz(u, v);
      ScaledBound(|u| as real, CentredDot(u, v), CentredDot(u, u), CentredDot(v, v),
                  CoSpread(u, v), Spread(u), Spread(v));
    }
  }

  lemma VarianceNonNegative(s: seq<real>)
    requires |s| > 0
    ensures Variance(s) >= 0.0
  {
    DevSelfNonNegative(s, Mean(s), |s|);
  }

  /** Equal elements have zero variance, and only they do. */
  lemma VarianceZeroIffAllEqual(s: seq<real>)
    requires |s| > 0
    ensures Variance(s) == 0.0 <==> AllEqual(s)
  {
    var m := Mean(s);
    DevSelfZero(s, m, |s|);
    ZeroFactor(|s| as real, Variance(s), CentredDot(s, s));
    if AllEqual(s) {
      MeanOfEqual(s);
    }
  }
}
