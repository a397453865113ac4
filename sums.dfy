/** Running sums over sequences of reals, as the accumulation loops of the
    engine compute them: left to right, one term per index, so the sum of the
    first k terms is the value of the accumulator after k iterations. */
module Sums {

  /** s[0] + … + s[k-1]. */
  function SumTo(s: seq<real>, k: nat): real
    requires k <= |s|
  {
    if k == 0 then 0.0 else SumTo(s, k - 1) + s[k - 1]
  }

  /** a[0]·b[0] + … + a[k-1]·b[k-1]: Σx² is DotTo(x, x, n), Σxy is DotTo(x, y, n). */
  function DotTo(a: seq<real>, b: seq<real>, k: nat): real
    requires k <= |a| && k <= |b|
  {
    if k == 0 then 0.0 else DotTo(a, b, k - 1) + a[k - 1] * b[k - 1]
  }

  /** Σ (a[i] - c)·(b[i] - d) over i < k: products of deviations from c and d. */
  function DevTo(a: seq<real>, b: seq<real>, c: real, d: real, k: nat): real
    requires k <= |a| && k <= |b|
  {
    if k == 0 then 0.0 else DevTo(a, b, c, d, k - 1) + (a[k - 1] - c) * (b[k - 1] - d)
  }

  /** n·d - a·b: the shape of every spread term the engine forms from its
      running sums (n·Σuv - Σu·Σv). */
  function Cross(n: real, d: real, a: real, b: real): real
  {
    n * d - a * b
  }

  /** The square of a real; comparisons of a square with zero go through it. */
  function Sq(a: real): real
  {
    a * a
  }

  lemma MulNonNegative(a: real, b: real, c: real)
    requires a >= 0.0 && b >= 0.0 && c == a * b
    ensures c >= 0.0
  {
  }

  lemma MulPositive(a: real, b: real, c: real)
    requires a > 0.0 && b > 0.0 && c == a * b
    ensures c > 0.0
  {
  }

  lemma Distribute(k: real, x: real, y: real, z: real)
    requires z == x + y
    ensures k * z == k * x + k * y
  {
  }

  lemma SqNonNegative(a: real)
    ensures Sq(a) >= 0.0
  {
    if a >= 0.0 {
      MulNonNegative(a, a, Sq(a));
    } else {
      MulNonNegative(-a, -a, Sq(a));
    }
  }

  lemma SqPositive(a: real)
    requires a != 0.0
    ensures Sq(a) > 0.0
  {
    if a > 0.0 {
      MulPositive(a, a, Sq(a));
    } else {
      MulPositive(-a, -a, Sq(a));
    }
  }

  /** Summing k copies of c gives k·c. */
  lemma {:induction false} SumOfConstant(s: seq<real>, c: real, k: nat)
    requires k <= |s| && forall i :: 0 <= i < k ==> s[i] == c
    ensures SumTo(s, k) == (k as real) * c
  {
    if k > 0 {
      SumOfConstant(s, c, k - 1);
    }
  }

  /** Σab - d·Σa - c·Σb + k·c·d: the expanded form of a sum of products of
      deviations. */
  function Expanded(dot: real, sa: real, sb: real, c: real, d: real, k: real): real
  {
    dot - d * sa - c * sb + k * c * d
  }

  /** One more index keeps the expanded form exact. */
  lemma ExpandGlue(ai: real, bi: real, c: real, d: real, k: real,
                   e0: real, dot0: real, sa0: real, sb0: real, e: real, dot: real, sa: real, sb: real)
    requires e == e0 + (ai - c) * (bi - d) && dot == dot0 + ai * bi && sa == sa0 + ai && sb == sb0 + bi
    ensures e0 == Expanded(dot0, sa0, sb0, c, d, k) ==> e == Expanded(dot, sa, sb, c, d, k + 1.0)
  {
    assert (ai - c) * (bi - d) == ai * bi - d * ai - c * bi + c * d;
  }

  lemma ExpandStepAt(a: seq<real>, b: seq<real>, c: real, d: real, k: nat)
    requires 0 < k <= |a| && k <= |b|
    ensures DevTo(a, b, c, d, k - 1) == Expanded(DotTo(a, b, k - 1), SumTo(a, k - 1), SumTo(b, k - 1), c, d, (k - 1) as real)
        ==> DevTo(a, b, c, d, k) == Expanded(DotTo(a, b, k), SumTo(a, k), SumTo(b, k), c, d, k as real)
  {
    ExpandGlue(a[k - 1], b[k - 1], c, d, (k - 1) as real,
               DevTo(a, b, c, d, k - 1), DotTo(a, b, k - 1), SumTo(a, k - 1), SumTo(b, k - 1),
               DevTo(a, b, c, d, k), DotTo(a, b, k), SumTo(a, k), SumTo(b, k));
  }

  /** Σ (a - c)(b - d) = Σab - d·Σa - c·Σb + k·c·d. */
  lemma {:induction false} DevExpand(a: seq<real>, b: seq<real>, c: real, d: real, k: nat)
    requires k <= |a| && k <= |b|
    ensures DevTo(a, b, c, d, k) == Expanded(DotTo(a, b, k), SumTo(a, k), SumTo(b, k), c, d, k as real)
  {
    if k > 0 {
      ExpandStepAt(a, b, c, d, k);
      DevExpand(a, b, c, d, k - 1);
    }
  }

  /** A sum of squared deviations is never negative. */
  lemma {:induction false} DevSelfNonNegative(s: seq<real>, c: real, k: nat)
    requires k <= |s|
    ensures DevTo(s, s, c, c, k) >= 0.0
  {
    if k > 0 {
      DevSelfNonNegative(s, c, k - 1);
      SqNonNegative(s[k - 1] - c);
    }
  }

  /** A sum of squared deviations is zero exactly when every term deviates by zero. */
  lemma {:induction false} DevSelfZero(s: seq<real>, c: real, k: nat)
    requires k <= |s|
    ensures DevTo(s, s, c, c, k) == 0.0 <==> forall i :: 0 <= i < k ==> s[i] == c
  {
    if k > 0 {
      DevSelfZero(s, c, k - 1);
      DevSelfNonNegative(s, c, k - 1);
      if s[k - 1] != c {
        SqPositive(s[k - 1] - c);
      }
    }
  }

  // ---------------------------------------------------------------------
  // Cauchy–Schwarz, through the quadratic form Σ ((u - c) - t·(v - d))²

  /** Σ ((u[i] - c) - t·(v[i] - d))² over i < k. */
  function QuadTo(u: seq<real>, v: seq<real>, c: real, d: real, t: real, k: nat): real
    requires k <= |u| && k <= |v|
  {
    if k == 0 then 0.0 else QuadTo(u, v, c, d, t, k - 1) + Sq((u[k - 1] - c) - t * (v[k - 1] - d))
  }

  /** How far q is from the quadratic a - 2tc + t²b. */
  function QuadGap(q: real, a: real, b: real, c: real, t: real): real
  {
    q - (a - 2.0 * t * c + t * t * b)
  }

  lemma QuadStep(x: real, y: real, t: real)
    ensures Sq(x - t * y) == x * x - 2.0 * t * (x * y) + t * t * (y * y)
  {
  }

  /** Adding the terms of one index keeps the quadratic form exact. */
  lemma QuadGlue(ui: real, vi: real, c: real, d: real, t: real,
                 q0: real, a0: real, b0: real, c0: real, q: real, a: real, b: real, cc: real)
    requires q == q0 + Sq((ui - c) - t * (vi - d))
    requires a == a0 + (ui - c) * (ui - c) && b == b0 + (vi - d) * (vi - d)
    requires cc == c0 + (ui - c) * (vi - d)
    ensures QuadGap(q0, a0, b0, c0, t) == 0.0 ==> QuadGap(q, a, b, cc, t) == 0.0
  {
    var x, y := ui - c, vi - d;
    QuadStep(x, y, t);
    Distribute(t * t, b0, y * y, b);
    Distribute(2.0 * t, c0, x * y, cc);
  }

  lemma QuadStepAt(u: seq<real>, v: seq<real>, c: real, d: real, t: real, k: nat)
    requires 0 < k <= |u| && k <= |v|
    ensures QuadGap(QuadTo(u, v, c, d, t, k - 1), DevTo(u, u, c, c, k - 1), DevTo(v, v, d, d, k - 1),
                    DevTo(u, v, c, d, k - 1), t) == 0.0
        ==> QuadGap(QuadTo(u, v, c, d, t, k), DevTo(u, u, c, c, k), DevTo(v, v, d, d, k),
                    DevTo(u, v, c, d, k), t) == 0.0
  {
    QuadGlue(u[k - 1], v[k - 1], c, d, t,
      QuadTo(u, v, c, d, t, k - 1), DevTo(u, u, c, c, k - 1), DevTo(v, v, d, d, k - 1), DevTo(u, v, c, d, k - 1),
      QuadTo(u, v, c, d, t, k), DevTo(u, u, c, c, k), DevTo(v, v, d, d, k), DevTo(u, v, c, d, k));
  }

  /** Σ ((u - c) - t(v - d))² = A - 2tC + t²B with A, B, C the deviation sums. */
  lemma {:induction false} QuadExpand(u: seq<real>, v: seq<real>, c: real, d: real, t: real, k: nat)
    requires k <= |u| && k <= |v|
    ensures QuadGap(QuadTo(u, v, c, d, t, k), DevTo(u, u, c, c, k), DevTo(v, v, d, d, k),
                    DevTo(u, v, c, d, k), t) == 0.0
  {
    if k > 0 {
      QuadStepAt(u, v, c, d, t, k);
      QuadExpand(u, v, c, d, t, k - 1);
    }
  }

  lemma {:induction false} QuadNonNegative(u: seq<real>, v: seq<real>, c: real, d: real, t: real, k: nat)
    requires k <= |u| && k <= |v|
    ensures QuadTo(u, v, c, d, t, k) >= 0.0
  {
    if k > 0 {
      QuadNonNegative(u, v, c, d, t, k - 1);
      SqNonNegative((u[k - 1] - c) - t * (v[k - 1] - d));
    }
  }

  /** A quadratic a - 2tc + t²b that is non-negative at t = c/b has c² <= a·b. */
  lemma Discriminant(a: real, b: real, c: real, q: real)
    requires b > 0.0 && QuadGap(q, a, b, c, c / b) == 0.0 && q >= 0.0
    ensures Sq(c) <= a * b
  {
    var t := c / b;
    assert t * b == c;
    assert q == a - t * c;
    MulNonNegative(q, b, q * b);
    assert q * b == a * b - c * c;
  }

  /** With b = 0 and c ≠ 0 the quadratic is negative at t = (a + 1)/(2c). */
  lemma DegenerateQuadratic(a: real, c: real, q: real)
    requires c != 0.0 && QuadGap(q, a, 0.0, c, (a + 1.0) / (2.0 * c)) == 0.0
    ensures q < 0.0
  {
  }

  /** How far p² lies below a·b. Facts of the form p² <= a·b are passed
      between lemmas as Slack(p, a, b) >= 0, which the solver matches as a
      whole instead of re-deriving the products. */
  function Slack(p: real, a: real, b: real): real
  {
    a * b - Sq(p)
  }

  /** Cauchy–Schwarz for deviations: (Σ(u-c)(v-d))² <= Σ(u-c)² · Σ(v-d)². */
  lemma CauchySchwarz(u: seq<real>, v: seq<real>, c: real, d: real, k: nat)
    requires k <= |u| && k <= |v|
    ensures Sq(DevTo(u, v, c, d, k)) <= DevTo(u, u, c, c, k) * DevTo(v, v, d, d, k)
    ensures Slack(DevTo(u, v, c, d, k), DevTo(u, u, c, c, k), DevTo(v, v, d, d, k)) >= 0.0
  {
    DevSelfNonNegative(v, d, k);
    if DevTo(v, v, d, d, k) > 0.0 {
      var t := DevTo(u, v, c, d, k) / DevTo(v, v, d, d, k);
      QuadExpand(u, v, c, d, t, k);
      QuadNonNegative(u, v, c, d, t, k);
      Discriminant(DevTo(u, u, c, c, k), DevTo(v, v, d, d, k), DevTo(u, v, c, d, k), QuadTo(u, v, c, d, t, k));
    } else if DevTo(u, v, c, d, k) != 0.0 {
      var t := (DevTo(u, u, c, c, k) + 1.0) / (2.0 * DevTo(u, v, c, d, k));
      QuadExpand(u, v, c, d, t, k);
      QuadNonNegative(u, v, c, d, t, k);
      DegenerateQuadratic(DevTo(u, u, c, c, k), DevTo(u, v, c, d, k), QuadTo(u, v, c, d, t, k));
    } else {
      DevSelfNonNegative(u, c, k);
      MulNonNegative(DevTo(u, u, c, c, k), DevTo(v, v, d, d, k), DevTo(u, u, c, c, k) * DevTo(v, v, d, d, k));
    }
  }
}
