/** The outlier rule on y: an index is an outlier when its value lies
    strictly more than two population standard deviations from the mean. */
module Outliers {
  import opened Sums
  import opened Numerics
  import opened Stats

  /** The engine's `threshold`: how many standard deviations count as far. */
  const Threshold: real := 2.0

  /** math.Sqrt(variance): the population standard deviation. */
  function StdDev(s: seq<real>, sqrt: real -> real): real
    requires |s| > 0
  {
    sqrt(Variance(s))
  }

  /** The indices i < k with |y[i] - c| > t, in ascending order. */
  function Flagged(y: seq<real>, k: nat, c: real, t: real): (r: seq<nat>)
    requires k <= |y|
    ensures forall j :: 0 <= j < |r| ==> r[j] < k
  {
    if k == 0 then []
    else Flagged(y, k - 1, c, t) + (if Abs(y[k - 1] - c) > t then [k - 1] else [])
  }

  /** Flagged holds exactly the indices below k whose value lies beyond t,
      each once, in ascending order. */
  lemma {:induction false} FlaggedExact(y: seq<real>, k: nat, c: real, t: real)
    requires k <= |y|
    ensures forall i :: 0 <= i < k ==> (i in Flagged(y, k, c, t) <==> Abs(y[i] - c) > t)
    ensures forall j, l :: 0 <= j < l < |Flagged(y, k, c, t)| ==> Flagged(y, k, c, t)[j] < Flagged(y, k, c, t)[l]
  {
    if k > 0 {
      FlaggedExact(y, k - 1, c, t);
    }
  }

  /** The indices of the outliers of y, ascending. */
  function OutliersOf(y: seq<real>, sqrt: real -> real): seq<nat>
    requires |y| > 0
  {
    Flagged(y, |y|, Mean(y), Threshold * StdDev(y, sqrt))
  }

  /** The outliers are exactly the indices whose value lies more than two
      standard deviations from the mean, each once and in ascending order;
      there are none exactly when no squared deviation exceeds four times the
      variance. */
  lemma OutliersExact(y: seq<real>, sqrt: real -> real)
    requires |y| > 0 && IsSqrt(sqrt)
    ensures forall i :: 0 <= i < |y| ==> (i in OutliersOf(y, sqrt) <==> Abs(y[i] - Mean(y)) > Threshold * StdDev(y, sqrt))
    ensures forall j, l :: 0 <= j < l < |OutliersOf(y, sqrt)| ==> OutliersOf(y, sqrt)[j] < OutliersOf(y, sqrt)[l]
    ensures OutliersOf(y, sqrt) == [] <==> forall i :: 0 <= i < |y| ==> Sq(y[i] - Mean(y)) <= 4.0 * Variance(y)
  {
    FlaggedExact(y, |y|, Mean(y), Threshold * StdDev(y, sqrt));
    forall i | 0 <= i < |y|
      ensures i in OutliersOf(y, sqrt) <==> Sq(y[i] - Mean(y)) > 4.0 * Variance(y)
    {
      OutlierSquaredForm(y, sqrt, i);
    }
    if OutliersOf(y, sqrt) != [] {
      assert OutliersOf(y, sqrt)[0] in OutliersOf(y, sqrt);
    }
  }

  /** The rule needs no square root: i is an outlier exactly when
      (y[i] - mean)² > 4·variance. */
  lemma OutlierSquaredForm(y: seq<real>, sqrt: real -> real, i: nat)
    requires |y| > 0 && IsSqrt(sqrt) && i < |y|
    ensures i in OutliersOf(y, sqrt) <==> Sq(y[i] - Mean(y)) > 4.0 * Variance(y)
  {
    VarianceNonNegative(y);
    var s := StdDev(y, sqrt);
    assert Sq(s) == Variance(y);
    assert Sq(Threshold * s) == 4.0 * Sq(s);
    AbsBeyond(y[i] - Mean(y), Threshold * s);
    FlaggedExact(y, |y|, Mean(y), Threshold * s);
  }

  /** For t >= 0: |d| > t exactly when d² > t². */
  lemma AbsBeyond(d: real, t: real)
    requires t >= 0.0
    ensures Abs(d) > t <==> Sq(d) > Sq(t)
  {
    var a := Abs(d);
    assert Sq(a) == Sq(d);
    assert Sq(a) - Sq(t) == (a - t) * (a + t);
    if a > t {
      MulPositive(a - t, a + t, Sq(a) - Sq(t));
    } else {
      MulNonNegative(t - a, a + t, Sq(t) - Sq(a));
    }
  }

  /** A constant y has no outliers: the rule is strict and the deviation is zero. */
  lemma ConstantHasNoOutliers(y: seq<real>, sqrt: real -> real)
    requires |y| > 0 && IsSqrt(sqrt) && AllEqual(y)
    ensures OutliersOf(y, sqrt) == []
  {
    VarianceZeroIffAllEqual(y);
    SqrtZero(sqrt);
    MeanOfEqual(y);
    NoneBeyond(y, |y|, Mean(y), Threshold * StdDev(y, sqrt));
    FlaggedLength(y, |y|, Mean(y), Threshold * StdDev(y, sqrt));
  }

  lemma {:induction false} NoneBeyond(y: seq<real>, k: nat, c: real, t: real)
    requires k <= |y| && forall i :: 0 <= i < k ==> Abs(y[i] - c) <= t
    ensures CountBeyond(y, k, c, t) == 0
  {
    if k > 0 {
      NoneBeyond(y, k - 1, c, t);
    }
  }

  /** How many indices i < k have |y[i] - c| > t. */
  function CountBeyond(y: seq<real>, k: nat, c: real, t: real): nat
    requires k <= |y|
  {
    if k == 0 then 0 else CountBeyond(y, k - 1, c, t) + (if Abs(y[k - 1] - c) > t then 1 else 0)
  }

  lemma {:induction false} FlaggedLength(y: seq<real>, k: nat, c: real, t: real)
    requires k <= |y|
    ensures |Flagged(y, k, c, t)| == CountBeyond(y, k, c, t)
  {
    if k > 0 {
      FlaggedLength(y, k - 1, c, t);
    }
  }

  /** How far w exceeds m·t²: the mass facts pass between lemmas as
      Excess(..) >= 0 and Excess(..) > 0. */
  function Excess(w: real, m: nat, t: real): real
  {
    w - (m as real) * Sq(t)
  }

  /** The squared deviations of the first k elements weigh at least t² per
      index beyond t, and strictly more once there is one. */
  lemma {:induction false} FlaggedMass(y: seq<real>, k: nat, c: real, t: real)
    requires k <= |y| && t >= 0.0
    ensures Excess(DevTo(y, y, c, c, k), CountBeyond(y, k, c, t), t) >= 0.0
    ensures CountBeyond(y, k, c, t) > 0 ==> Excess(DevTo(y, y, c, c, k), CountBeyond(y, k, c, t), t) > 0.0
  {
    if k > 0 {
      MassStepAt(y, k, c, t);
      FlaggedMass(y, k - 1, c, t);
    }
  }

  lemma MassStepAt(y: seq<real>, k: nat, c: real, t: real)
    requires 0 < k <= |y| && t >= 0.0
    ensures (Excess(DevTo(y, y, c, c, k - 1), CountBeyond(y, k - 1, c, t), t) >= 0.0 &&
             (CountBeyond(y, k - 1, c, t) > 0 ==> Excess(DevTo(y, y, c, c, k - 1), CountBeyond(y, k - 1, c, t), t) > 0.0))
        ==> (Excess(DevTo(y, y, c, c, k), CountBeyond(y, k, c, t), t) >= 0.0 &&
             (CountBeyond(y, k, c, t) > 0 ==> Excess(DevTo(y, y, c, c, k), CountBeyond(y, k, c, t), t) > 0.0))
  {
    MassStep(y[k - 1], c, t, DevTo(y, y, c, c, k - 1), DevTo(y, y, c, c, k),
             CountBeyond(y, k - 1, c, t), CountBeyond(y, k, c, t));
  }

  /** One more index keeps the mass bound: one beyond t adds more than t². */
  lemma MassStep(yi: real, c: real, t: real, wp: real, w: real, mp: nat, m: nat)
    requires w == wp + (yi - c) * (yi - c) && t >= 0.0
    requires Abs(yi - c) > t ==> m == mp + 1
    requires !(Abs(yi - c) > t) ==> m == mp
    ensures (Excess(wp, mp, t) >= 0.0 && (mp > 0 ==> Excess(wp, mp, t) > 0.0))
        ==> (Excess(w, m, t) >= 0.0 && (m > 0 ==> Excess(w, m, t) > 0.0))
  {
    AbsBeyond(yi - c, t);
    SqNonNegative(yi - c);
    SqNonNegative(t);
    assert w == wp + Sq(yi - c);
    if Abs(yi - c) > t {
      assert (m as real) * Sq(t) == (mp as real) * Sq(t) + Sq(t);
      assert Excess(w, m, t) == Excess(wp, mp, t) + (Sq(yi - c) - Sq(t));
    } else {
      assert Excess(w, m, t) == Excess(wp, mp, t) + Sq(yi - c);
    }
  }

  /** Chebyshev's bound for the two-sigma rule: fewer than a quarter of the
      samples can be outliers. */
  lemma OutlierCountBound(y: seq<real>, sqrt: real -> real)
    requires |y| > 0 && IsSqrt(sqrt)
    ensures 4 * |OutliersOf(y, sqrt)| < |y| || |OutliersOf(y, sqrt)| == 0
  {
    var s := StdDev(y, sqrt);
    VarianceNonNegative(y);
    assert Sq(s) == Variance(y);
    FlaggedMass(y, |y|, Mean(y), Threshold * s);
    FlaggedLength(y, |y|, Mean(y), Threshold * s);
    if |OutliersOf(y, sqrt)| > 0 {
      CountFromMass(|y| as real, |OutliersOf(y, sqrt)|, CentredDot(y, y), Variance(y), s);
    }
  }

  lemma CountFromMass(n: real, k: nat, d: real, v: real, s: real)
    requires n > 0.0 && k > 0 && v >= 0.0 && v == d / n && Sq(s) == v
    requires Excess(d, k, Threshold * s) > 0.0
    ensures 4.0 * (k as real) < n
  {
    var m := k as real;
    assert Sq(Threshold * s) == 4.0 * v;
    assert d == n * v;
    if v == 0.0 {
      MulNonNegative(m, 4.0 * v, m * (4.0 * v));
      assert false;
    }
    assert n * v > (4.0 * m) * v;
    if 4.0 * m >= n {
      MulNonNegative(4.0 * m - n, v, (4.0 * m - n) * v);
    }
  }
}
