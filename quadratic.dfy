/** The quadratic fit: the 3×3 normal system of least squares for
    y = a·x² + b·x + c, solved by Cramer's rule exactly as the engine writes
    the determinants, and the vertex it reports. */
module Quadratic {
  import opened Sums
  import opened Outcomes

  /** Σx³ over the first k values, one x·x·x term per index. */
  function CubeTo(x: seq<real>, k: nat): real
    requires k <= |x|
  {
    if k == 0 then 0.0 else CubeTo(x, k - 1) + x[k - 1] * x[k - 1] * x[k - 1]
  }

  /** Σx⁴ over the first k values. */
  function QuartTo(x: seq<real>, k: nat): real
    requires k <= |x|
  {
    if k == 0 then 0.0 else QuartTo(x, k - 1) + x[k - 1] * x[k - 1] * x[k - 1] * x[k - 1]
  }

  /** Σx²y over the first k pairs. */
  function SqDotTo(x: seq<real>, y: seq<real>, k: nat): real
    requires k <= |x| && k <= |y|
  {
    if k == 0 then 0.0 else SqDotTo(x, y, k - 1) + x[k - 1] * x[k - 1] * y[k - 1]
  }

  /** One more index adds one term to each of the three sums. */
  lemma HigherStep(x: seq<real>, y: seq<real>, i: nat)
    requires i < |x| && i < |y|
    ensures CubeTo(x, i + 1) == CubeTo(x, i) + x[i] * x[i] * x[i]
    ensures QuartTo(x, i + 1) == QuartTo(x, i) + x[i] * x[i] * x[i] * x[i]
    ensures SqDotTo(x, y, i + 1) == SqDotTo(x, y, i) + x[i] * x[i] * y[i]
  {
  }

  /** The sums the quadratic fit is computed from. */
  datatype Moments = Moments(n: real, sx: real, sy: real, sx2: real, sx3: real, sx4: real,
                             sxy: real, sx2y: real)

  function MomentsOf(x: seq<real>, y: seq<real>): Moments
    requires |x| == |y|
  {
    var n := |x|;
    Moments(n as real, SumTo(x, n), SumTo(y, n), DotTo(x, x, n), CubeTo(x, n), QuartTo(x, n),
            DotTo(x, y, n), SqDotTo(x, y, n))
  }

  /** det of [[Σx⁴, Σx³, Σx²], [Σx³, Σx², Σx], [Σx², Σx, n]], along the first row. */
  function Det(m: Moments): real
  {
    m.sx4 * (m.sx2 * m.n - m.sx * m.sx) -
    m.sx3 * (m.sx3 * m.n - m.sx * m.sx2) +
    m.sx2 * (m.sx3 * m.sx - m.sx2 * m.sx2)
  }

  /** The determinant with the first column replaced by (Σx²y, Σxy, Σy). */
  function NumA(m: Moments): real
  {
    m.sx2y * (m.sx2 * m.n - m.sx * m.sx) -
    m.sxy * (m.sx3 * m.n - m.sx * m.sx2) +
    m.sy * (m.sx3 * m.sx - m.sx2 * m.sx2)
  }

  /** The determinant with the second column replaced. */
  function NumB(m: Moments): real
  {
    m.sx4 * (m.sxy * m.n - m.sy * m.sx) -
    m.sx3 * (m.sx2y * m.n - m.sy * m.sx2) +
    m.sx2 * (m.sx2y * m.sx - m.sxy * m.sx2)
  }

  /** The determinant with the third column replaced. */
  function NumC(m: Moments): real
  {
    m.sx4 * (m.sx2 * m.sy - m.sx * m.sxy) -
    m.sx3 * (m.sx3 * m.sy - m.sx * m.sx2y) +
    m.sx2 * (m.sx3 * m.sxy - m.sx2 * m.sx2y)
  }

  datatype Parabola = Parabola(a: real, b: real, c: real)

  /** The coefficients by Cramer's rule; none when the determinant is zero. */
  function QuadraticFit(m: Moments): Option<Parabola>
  {
    var det := Det(m);
    if det == 0.0 then None
    else Some(Parabola(NumA(m) / det, NumB(m) / det, NumC(m) / det))
  }

  /** The engine's determinant and three quotients give the fit QuadraticFit
      describes. */
  lemma FitSteps(m: Moments, det: real, a: real, b: real, c: real)
    requires det == Det(m) && det != 0.0
    requires a == NumA(m) / det && b == NumB(m) / det && c == NumC(m) / det
    ensures QuadraticFit(m) == Some(Parabola(a, b, c))
  {
    var f := QuadraticFit(m);
    assert f.Some? && f.value.a == a;
    assert f.value.b == b;
    assert f.value.c == c;
  }

  // ---------------------------------------------------------------------
  // Cramer's rule solves the normal system

  // The cofactors of the symmetric normal matrix
  // [[Σx⁴, Σx³, Σx²], [Σx³, Σx², Σx], [Σx², Σx, n]].

  function C11(m: Moments): real { m.sx2 * m.n - m.sx * m.sx }
  function C12(m: Moments): real { m.sx * m.sx2 - m.sx3 * m.n }
  function C13(m: Moments): real { m.sx3 * m.sx - m.sx2 * m.sx2 }
  function C22(m: Moments): real { m.sx4 * m.n - m.sx2 * m.sx2 }
  function C23(m: Moments): real { m.sx3 * m.sx2 - m.sx4 * m.sx }
  function C33(m: Moments): real { m.sx4 * m.sx2 - m.sx3 * m.sx3 }

  // Row i of the matrix against the cofactors of column j gives the
  // determinant when i = j and zero otherwise (ExpandIJ).

  lemma Expand11(m: Moments) ensures C11(m) * m.sx4 + C12(m) * m.sx3 + C13(m) * m.sx2 == Det(m) {}
  lemma Expand12(m: Moments) ensures C12(m) * m.sx4 + C22(m) * m.sx3 + C23(m) * m.sx2 == 0.0 {}
  lemma Expand13(m: Moments) ensures C13(m) * m.sx4 + C23(m) * m.sx3 + C33(m) * m.sx2 == 0.0 {}
  lemma Expand21(m: Moments) ensures C11(m) * m.sx3 + C12(m) * m.sx2 + C13(m) * m.sx == 0.0 {}
  lemma Expand22(m: Moments) ensures C12(m) * m.sx3 + C22(m) * m.sx2 + C23(m) * m.sx == Det(m) {}
  lemma Expand23(m: Moments) ensures C13(m) * m.sx3 + C23(m) * m.sx2 + C33(m) * m.sx == 0.0 {}
  lemma Expand31(m: Moments) ensures C11(m) * m.sx2 + C12(m) * m.sx + C13(m) * m.n == 0.0 {}
  lemma Expand32(m: Moments) ensures C12(m) * m.sx2 + C22(m) * m.sx + C23(m) * m.n == 0.0 {}
  lemma Expand33(m: Moments) ensures C13(m) * m.sx2 + C23(m) * m.sx + C33(m) * m.n == Det(m) {}

  // Each Cramer numerator expands along its replaced column into the
  // right-hand side (Σx²y, Σxy, Σy) weighted by cofactors.

  lemma NumAForm(m: Moments) ensures NumA(m) == m.sx2y * C11(m) + m.sxy * C12(m) + m.sy * C13(m) {}
  lemma NumBForm(m: Moments) ensures NumB(m) == m.sx2y * C12(m) + m.sxy * C22(m) + m.sy * C23(m) {}
  lemma NumCForm(m: Moments) ensures NumC(m) == m.sx2y * C13(m) + m.sxy * C23(m) + m.sy * C33(m) {}

  /** Regrouping a row against the numerators by the right-hand side. */
  lemma Regroup(u: real, v: real, w: real, c11: real, c12: real, c13: real, c22: real, c23: real, c33: real,
                na: real, nb: real, nc: real, p: real, q: real, r: real, e1: real, e2: real, e3: real)
    requires na == u * c11 + v * c12 + w * c13
    requires nb == u * c12 + v * c22 + w * c23
    requires nc == u * c13 + v * c23 + w * c33
    requires c11 * p + c12 * q + c13 * r == e1
    requires c12 * p + c22 * q + c23 * r == e2
    requires c13 * p + c23 * q + c33 * r == e3
    ensures na * p + nb * q + nc * r == u * e1 + v * e2 + w * e3
  {
  }

  /** The three cofactor identities behind Cramer's rule for this system. */
  lemma CofactorRow1(m: Moments)
    ensures NumA(m) * m.sx4 + NumB(m) * m.sx3 + NumC(m) * m.sx2 == m.sx2y * Det(m)
  {
    NumAForm(m); NumBForm(m); NumCForm(m);
    Expand11(m); Expand12(m); Expand13(m);
    Regroup(m.sx2y, m.sxy, m.sy, C11(m), C12(m), C13(m), C22(m), C23(m), C33(m), NumA(m), NumB(m), NumC(m),
            m.sx4, m.sx3, m.sx2, Det(m), 0.0, 0.0);
  }

  lemma CofactorRow2(m: Moments)
    ensures NumA(m) * m.sx3 + NumB(m) * m.sx2 + NumC(m) * m.sx == m.sxy * Det(m)
  {
    NumAForm(m); NumBForm(m); NumCForm(m);
    Expand21(m); Expand22(m); Expand23(m);
    Regroup(m.sx2y, m.sxy, m.sy, C11(m), C12(m), C13(m), C22(m), C23(m), C33(m), NumA(m), NumB(m), NumC(m),
            m.sx3, m.sx2, m.sx, 0.0, Det(m), 0.0);
  }

  lemma CofactorRow3(m: Moments)
    ensures NumA(m) * m.sx2 + NumB(m) * m.sx + NumC(m) * m.n == m.sy * Det(m)
  {
    NumAForm(m); NumBForm(m); NumCForm(m);
    Expand31(m); Expand32(m); Expand33(m);
    Regroup(m.sx2y, m.sxy, m.sy, C11(m), C12(m), C13(m), C22(m), C23(m), C33(m), NumA(m), NumB(m), NumC(m),
            m.sx2, m.sx, m.n, 0.0, 0.0, Det(m));
  }

  lemma RowAlgebra(a: real, b: real, c: real, d: real, na: real, nb: real, nc: real,
                   r1: real, r2: real, r3: real, rhs: real)
    requires IsQuotient(a, na, d) && IsQuotient(b, nb, d) && IsQuotient(c, nc, d)
    requires na * r1 + nb * r2 + nc * r3 == rhs * d
    ensures a * r1 + b * r2 + c * r3 == rhs
  {
    assert na == a * d && nb == b * d && nc == c * d;
    assert (a * r1 + b * r2 + c * r3) * d == rhs * d;
  }

  /** q = n / d with d ≠ 0, as one fact the solver matches whole. */
  predicate IsQuotient(q: real, n: real, d: real)
  {
    d != 0.0 && q == n / d
  }

  /** The fitted coefficients solve the normal system of least squares:
      a·Σx⁴ + b·Σx³ + c·Σx² = Σx²y, a·Σx³ + b·Σx² + c·Σx = Σxy and
      a·Σx² + b·Σx + c·n = Σy. */
  lemma CramerSolves(m: Moments, p: Parabola)
    requires QuadraticFit(m) == Some(p)
    ensures p.a * m.sx4 + p.b * m.sx3 + p.c * m.sx2 == m.sx2y
    ensures p.a * m.sx3 + p.b * m.sx2 + p.c * m.sx == m.sxy
    ensures p.a * m.sx2 + p.b * m.sx + p.c * m.n == m.sy
  {
    FitParts(m, p);
    CramerRow1(m, p);
    CramerRow2(m, p);
    CramerRow3(m, p);
  }

  lemma FitParts(m: Moments, p: Parabola)
    requires QuadraticFit(m) == Some(p)
    ensures IsQuotient(p.a, NumA(m), Det(m)) && IsQuotient(p.b, NumB(m), Det(m)) && IsQuotient(p.c, NumC(m), Det(m))
  {
  }

  lemma CramerRow1(m: Moments, p: Parabola)
    requires IsQuotient(p.a, NumA(m), Det(m)) && IsQuotient(p.b, NumB(m), Det(m)) && IsQuotient(p.c, NumC(m), Det(m))
    ensures p.a * m.sx4 + p.b * m.sx3 + p.c * m.sx2 == m.sx2y
  {
    CofactorRow1(m);
    RowAlgebra(p.a, p.b, p.c, Det(m), NumA(m), NumB(m), NumC(m), m.sx4, m.sx3, m.sx2, m.sx2y);
  }

  lemma CramerRow2(m: Moments, p: Parabola)
    requires IsQuotient(p.a, NumA(m), Det(m)) && IsQuotient(p.b, NumB(m), Det(m)) && IsQuotient(p.c, NumC(m), Det(m))
    ensures p.a * m.sx3 + p.b * m.sx2 + p.c * m.sx == m.sxy
  {
    CofactorRow2(m);
    RowAlgebra(p.a, p.b, p.c, Det(m), NumA(m), NumB(m), NumC(m), m.sx3, m.sx2, m.sx, m.sxy);
  }

  lemma CramerRow3(m: Moments, p: Parabola)
    requires IsQuotient(p.a, NumA(m), Det(m)) && IsQuotient(p.b, NumB(m), Det(m)) && IsQuotient(p.c, NumC(m), Det(m))
    ensures p.a * m.sx2 + p.b * m.sx + p.c * m.n == m.sy
  {
    CofactorRow3(m);
    RowAlgebra(p.a, p.b, p.c, Det(m), NumA(m), NumB(m), NumC(m), m.sx2, m.sx, m.n, m.sy);
  }

  // ---------------------------------------------------------------------
  // Data lying exactly on a parabola is fitted by that parabola

  /** A·p + B·q + C·r. */
  function Comb3(a: real, p: real, b: real, q: real, c: real, r: real): real
  {
    a * p + b * q + c * r
  }

  /** y[i] = A·x[i]² + B·x[i] + C for every i. */
  predicate OnParabola(x: seq<real>, y: seq<real>, p: Parabola)
    requires |x| == |y|
  {
    forall i :: 0 <= i < |x| ==> y[i] == p.a * x[i] * x[i] + p.b * x[i] + p.c
  }

  lemma TermsOnParabola(xi: real, yi: real, p: Parabola)
    requires yi == p.a * xi * xi + p.b * xi + p.c
    ensures xi * yi == p.a * (xi * xi * xi) + p.b * (xi * xi) + p.c * xi
    ensures xi * xi * yi == p.a * (xi * xi * xi * xi) + p.b * (xi * xi * xi) + p.c * (xi * xi)
  {
  }

  lemma ParabolaStep0(x: seq<real>, y: seq<real>, p: Parabola, k: nat)
    requires 0 < k <= |x| == |y| && y[k - 1] == p.a * x[k - 1] * x[k - 1] + p.b * x[k - 1] + p.c
    ensures SumTo(y, k - 1) == Comb3(p.a, DotTo(x, x, k - 1), p.b, SumTo(x, k - 1), p.c, (k - 1) as real)
        ==> SumTo(y, k) == Comb3(p.a, DotTo(x, x, k), p.b, SumTo(x, k), p.c, k as real)
  {
  }

  lemma ParabolaStep1(x: seq<real>, y: seq<real>, p: Parabola, k: nat)
    requires 0 < k <= |x| == |y| && y[k - 1] == p.a * x[k - 1] * x[k - 1] + p.b * x[k - 1] + p.c
    ensures DotTo(x, y, k - 1) == Comb3(p.a, CubeTo(x, k - 1), p.b, DotTo(x, x, k - 1), p.c, SumTo(x, k - 1))
        ==> DotTo(x, y, k) == Comb3(p.a, CubeTo(x, k), p.b, DotTo(x, x, k), p.c, SumTo(x, k))
  {
    ParabolaGlue(x[k - 1], y[k - 1], p,
      DotTo(x, y, k - 1), CubeTo(x, k - 1), DotTo(x, x, k - 1), SumTo(x, k - 1),
      DotTo(x, y, k), CubeTo(x, k), DotTo(x, x, k), SumTo(x, k));
  }

  lemma ParabolaStep2(x: seq<real>, y: seq<real>, p: Parabola, k: nat)
    requires 0 < k <= |x| == |y| && y[k - 1] == p.a * x[k - 1] * x[k - 1] + p.b * x[k - 1] + p.c
    ensures SqDotTo(x, y, k - 1) == Comb3(p.a, QuartTo(x, k - 1), p.b, CubeTo(x, k - 1), p.c, DotTo(x, x, k - 1))
        ==> SqDotTo(x, y, k) == Comb3(p.a, QuartTo(x, k), p.b, CubeTo(x, k), p.c, DotTo(x, x, k))
  {
    ParabolaGlue2(x[k - 1], y[k - 1], p,
      SqDotTo(x, y, k - 1), QuartTo(x, k - 1), CubeTo(x, k - 1), DotTo(x, x, k - 1),
      SqDotTo(x, y, k), QuartTo(x, k), CubeTo(x, k), DotTo(x, x, k));
  }

  lemma ParabolaGlue(xi: real, yi: real, p: Parabola, d0: real, c0: real, q0: real, s0: real,
                     d: real, c: real, q: real, s: real)
    requires yi == p.a * xi * xi + p.b * xi + p.c
    requires d == d0 + xi * yi && c == c0 + xi * xi * xi && q == q0 + xi * xi && s == s0 + xi
    ensures d0 == Comb3(p.a, c0, p.b, q0, p.c, s0) ==> d == Comb3(p.a, c, p.b, q, p.c, s)
  {
    TermsOnParabola(xi, yi, p);
  }

  lemma ParabolaGlue2(xi: real, yi: real, p: Parabola, d0: real, c0: real, q0: real, s0: real,
                      d: real, c: real, q: real, s: real)
    requires yi == p.a * xi * xi + p.b * xi + p.c
    requires d == d0 + xi * xi * yi && c == c0 + xi * xi * xi * xi && q == q0 + xi * xi * xi && s == s0 + xi * xi
    ensures d0 == Comb3(p.a, c0, p.b, q0, p.c, s0) ==> d == Comb3(p.a, c, p.b, q, p.c, s)
  {
    TermsOnParabola(xi, yi, p);
  }

  /** On a parabola, Σy, Σxy and Σx²y are the matching combinations of the
      powers of x. */
  lemma {:induction false} MomentsOnParabola(x: seq<real>, y: seq<real>, p: Parabola, k: nat)
    requires k <= |x| == |y| && OnParabola(x, y, p)
    ensures SumTo(y, k) == Comb3(p.a, DotTo(x, x, k), p.b, SumTo(x, k), p.c, k as real)
    ensures DotTo(x, y, k) == Comb3(p.a, CubeTo(x, k), p.b, DotTo(x, x, k), p.c, SumTo(x, k))
    ensures SqDotTo(x, y, k) == Comb3(p.a, QuartTo(x, k), p.b, CubeTo(x, k), p.c, DotTo(x, x, k))
  {
    if k > 0 {
      ParabolaStep0(x, y, p, k);
      ParabolaStep1(x, y, p, k);
      ParabolaStep2(x, y, p, k);
      MomentsOnParabola(x, y, p, k - 1);
    }
  }

  lemma FitOnParabola(m: Moments, p: Parabola)
    requires Det(m) != 0.0
    requires m.sy == Comb3(p.a, m.sx2, p.b, m.sx, p.c, m.n)
    requires m.sxy == Comb3(p.a, m.sx3, p.b, m.sx2, p.c, m.sx)
    requires m.sx2y == Comb3(p.a, m.sx4, p.b, m.sx3, p.c, m.sx2)
    ensures QuadraticFit(m) == Some(p)
  {
    NumeratorsOnParabola(m, p);
    FitIs(m, p);
  }

  lemma NumeratorsOnParabola(m: Moments, p: Parabola)
    requires m.sy == Comb3(p.a, m.sx2, p.b, m.sx, p.c, m.n)
    requires m.sxy == Comb3(p.a, m.sx3, p.b, m.sx2, p.c, m.sx)
    requires m.sx2y == Comb3(p.a, m.sx4, p.b, m.sx3, p.c, m.sx2)
    ensures NumA(m) == p.a * Det(m) && NumB(m) == p.b * Det(m) && NumC(m) == p.c * Det(m)
  {
    NumAOnParabola(m, p);
    NumBOnParabola(m, p);
    NumCOnParabola(m, p);
  }

  lemma NumAOnParabola(m: Moments, p: Parabola)
    requires m.sy == Comb3(p.a, m.sx2, p.b, m.sx, p.c, m.n)
    requires m.sxy == Comb3(p.a, m.sx3, p.b, m.sx2, p.c, m.sx)
    requires m.sx2y == Comb3(p.a, m.sx4, p.b, m.sx3, p.c, m.sx2)
    ensures NumA(m) == p.a * Det(m)
  {
    NumAForm(m);
    Expand11(m); Expand21(m); Expand31(m);
    Substitute(m.sx2y, m.sxy, m.sy, C11(m), C12(m), C13(m), NumA(m), p.a, p.b, p.c,
               m.sx4, m.sx3, m.sx2, m.sx2, m.sx, m.n, Det(m), 0.0, 0.0);
  }

  lemma NumBOnParabola(m: Moments, p: Parabola)
    requires m.sy == Comb3(p.a, m.sx2, p.b, m.sx, p.c, m.n)
    requires m.sxy == Comb3(p.a, m.sx3, p.b, m.sx2, p.c, m.sx)
    requires m.sx2y == Comb3(p.a, m.sx4, p.b, m.sx3, p.c, m.sx2)
    ensures NumB(m) == p.b * Det(m)
  {
    NumBForm(m);
    Expand12(m); Expand22(m); Expand32(m);
    Substitute(m.sx2y, m.sxy, m.sy, C12(m), C22(m), C23(m), NumB(m), p.a, p.b, p.c,
               m.sx4, m.sx3, m.sx2, m.sx2, m.sx, m.n, 0.0, Det(m), 0.0);
  }

  lemma NumCOnParabola(m: Moments, p: Parabola)
    requires m.sy == Comb3(p.a, m.sx2, p.b, m.sx, p.c, m.n)
    requires m.sxy == Comb3(p.a, m.sx3, p.b, m.sx2, p.c, m.sx)
    requires m.sx2y == Comb3(p.a, m.sx4, p.b, m.sx3, p.c, m.sx2)
    ensures NumC(m) == p.c * Det(m)
  {
    NumCForm(m);
    Expand13(m); Expand23(m); Expand33(m);
    Substitute(m.sx2y, m.sxy, m.sy, C13(m), C23(m), C33(m), NumC(m), p.a, p.b, p.c,
               m.sx4, m.sx3, m.sx2, m.sx2, m.sx, m.n, 0.0, 0.0, Det(m));
  }

  /** A cofactor-weighted right-hand side, with the right-hand side on the
      parabola (a, b, c), regrouped by a, b and c against the columns of the
      symmetric normal matrix [[s11, s12, s13], [s12, s22, s23], [s13, s23, s33]]. */
  lemma Substitute(u: real, v: real, w: real, k1: real, k2: real, k3: real, num: real,
                   a: real, b: real, c: real,
                   s11: real, s12: real, s13: real, s22: real, s23: real, s33: real,
                   e1: real, e2: real, e3: real)
    requires num == u * k1 + v * k2 + w * k3
    requires u == Comb3(a, s11, b, s12, c, s13)
    requires v == Comb3(a, s12, b, s22, c, s23)
    requires w == Comb3(a, s13, b, s23, c, s33)
    requires k1 * s11 + k2 * s12 + k3 * s13 == e1
    requires k1 * s12 + k2 * s22 + k3 * s23 == e2
    requires k1 * s13 + k2 * s23 + k3 * s33 == e3
    ensures num == a * e1 + b * e2 + c * e3
  {
  }

  lemma FitIs(m: Moments, p: Parabola)
    requires Det(m) != 0.0
    requires NumA(m) == p.a * Det(m) && NumB(m) == p.b * Det(m) && NumC(m) == p.c * Det(m)
    ensures QuadraticFit(m) == Some(p)
  {
    QuotientsOf(NumA(m), NumB(m), NumC(m), Det(m), p);
    FitSteps(m, Det(m), p.a, p.b, p.c);
  }

  lemma QuotientsOf(na: real, nb: real, nc: real, d: real, p: Parabola)
    requires d != 0.0 && na == p.a * d && nb == p.b * d && nc == p.c * d
    ensures p.a == na / d && p.b == nb / d && p.c == nc / d
  {
    DivideOut(na, d, p.a);
    DivideOut(nb, d, p.b);
    DivideOut(nc, d, p.c);
  }

  lemma DivideOut(q: real, d: real, a: real)
    requires d != 0.0 && q == a * d
    ensures q / d == a
  {
  }

  /** Data lying exactly on a parabola, with a non-zero determinant, is
      fitted by that parabola. */
  lemma RecoversParabola(x: seq<real>, y: seq<real>, p: Parabola)
    requires |x| == |y| && OnParabola(x, y, p) && Det(MomentsOf(x, y)) != 0.0
    ensures QuadraticFit(MomentsOf(x, y)) == Some(p)
  {
    MomentsOnParabola(x, y, p, |x|);
    FitOnParabola(MomentsOf(x, y), p);
  }

  // ---------------------------------------------------------------------
  // The vertex

  /** a·t·t + b·t + c: the engine's vertexY formula at t. */
  function Eval(p: Parabola, t: real): real
  {
    p.a * t * t + p.b * t + p.c
  }

  datatype Extremum = Minimum | Maximum

  /** "maximum" when a < 0, "minimum" otherwise. */
  function ExtremumOf(p: Parabola): (e: Extremum)
    ensures e == Maximum <==> p.a < 0.0
  {
    if p.a < 0.0 then Maximum else Minimum
  }

  /** The vertex (-b / 2a, value there) of a parabola with a ≠ 0; a fit with
      a = 0 is a straight line and has none. */
  function VertexOf(p: Parabola): (v: Option<(real, real)>)
    ensures v.Some? <==> p.a != 0.0
  {
    if p.a == 0.0 then None
    else
      var vx := -p.b / (2.0 * p.a);
      Some((vx, Eval(p, vx)))
  }

  /** The engine's vertexX and vertexY are the vertex VertexOf describes. */
  lemma VertexSteps(p: Parabola, vx: real, vy: real)
    requires p.a != 0.0 && vx == -p.b / (2.0 * p.a) && vy == p.a * vx * vx + p.b * vx + p.c
    ensures VertexOf(p) == Some((vx, vy))
  {
    var v := VertexOf(p);
    assert v.Some? && v.value.0 == vx;
    assert v.value.1 == vy;
  }

  lemma CompleteSquare(a: real, b: real, c: real, t: real, vx: real)
    requires a != 0.0 && vx == -b / (2.0 * a)
    ensures (a * t * t + b * t + c) - (a * vx * vx + b * vx + c) == a * Sq(t - vx)
  {
    assert b == -2.0 * a * vx;
  }

  /** Away from the vertex the parabola differs from its vertex value by
      a·(t - vx)², so the vertex is the lowest point when the label is
      "minimum" and the highest when it is "maximum". */
  lemma VertexIsExtremum(p: Parabola, t: real)
    requires p.a != 0.0
    ensures Eval(p, t) - VertexOf(p).value.1 == p.a * Sq(t - VertexOf(p).value.0)
    ensures ExtremumOf(p) == Minimum ==> Eval(p, t) >= VertexOf(p).value.1
    ensures ExtremumOf(p) == Maximum ==> Eval(p, t) <= VertexOf(p).value.1
  {
    var vx := VertexOf(p).value.0;
    CompleteSquare(p.a, p.b, p.c, t, vx);
    SqNonNegative(t - vx);
    if p.a > 0.0 {
      MulNonNegative(p.a, Sq(t - vx), p.a * Sq(t - vx));
    } else {
      MulNonNegative(-p.a, Sq(t - vx), -(p.a * Sq(t - vx)));
    }
  }

  // ---------------------------------------------------------------------
  // The vertex as the engine computes it, with float64 division

  /** A float64 quotient: finite, or ±Inf / NaN after a division by zero. */
  datatype Float = Finite(value: real) | NonFinite

  function FloatDiv(p: real, q: real): Float
  {
    if q == 0.0 then NonFinite else Finite(p / q)
  }

  /** vertexX = -b / (2a) and vertexY = a·vx·vx + b·vx + c with no guard on
      a: a non-finite vertexX makes vertexY non-finite too (0·Inf is NaN). */
  function VertexAsWritten(p: Parabola): (Float, Float)
  {
    match FloatDiv(-p.b, 2.0 * p.a)
    case NonFinite => (NonFinite, NonFinite)
    case Finite(vx) => (Finite(vx), Finite(Eval(p, vx)))
  }

  /** The unguarded vertex is non-finite exactly when a = 0, and otherwise
      agrees with VertexOf. */
  lemma VertexAsWrittenBreaks(p: Parabola)
    ensures VertexAsWritten(p).0 == NonFinite <==> p.a == 0.0
    ensures p.a != 0.0 ==> VertexAsWritten(p) == (Finite(VertexOf(p).value.0), Finite(VertexOf(p).value.1))
  {
  }

  /** Data lying exactly on a straight line, with a non-zero determinant, is
      fitted with a = 0, so the engine prints a non-finite vertex. */
  lemma LineDataBreaksVertex(x: seq<real>, y: seq<real>, b: real, c: real)
    requires |x| == |y| && OnParabola(x, y, Parabola(0.0, b, c)) && Det(MomentsOf(x, y)) != 0.0
    ensures QuadraticFit(MomentsOf(x, y)) == Some(Parabola(0.0, b, c))
    ensures VertexAsWritten(QuadraticFit(MomentsOf(x, y)).value).0 == NonFinite
  {
    RecoversParabola(x, y, Parabola(0.0, b, c));
  }

  /** A concrete case: x = 1, 2, 3 and y = 2, 4, 6 (y = 2x) have determinant 4. */
  lemma LineDataExample()
    ensures Det(MomentsOf([1.0, 2.0, 3.0], [2.0, 4.0, 6.0])) == 4.0
    ensures QuadraticFit(MomentsOf([1.0, 2.0, 3.0], [2.0, 4.0, 6.0])) == Some(Parabola(0.0, 2.0, 0.0))
    ensures VertexAsWritten(Parabola(0.0, 2.0, 0.0)).0 == NonFinite
  {
    var x, y := [1.0, 2.0, 3.0], [2.0, 4.0, 6.0];
    assert SumTo(x, 1) == 1.0 && SumTo(x, 2) == 3.0 && SumTo(x, 3) == 6.0;
    assert SumTo(y, 1) == 2.0 && SumTo(y, 2) == 6.0 && SumTo(y, 3) == 12.0;
    assert DotTo(x, x, 1) == 1.0 && DotTo(x, x, 2) == 5.0 && DotTo(x, x, 3) == 14.0;
    assert CubeTo(x, 1) == 1.0 && CubeTo(x, 2) == 9.0 && CubeTo(x, 3) == 36.0;
    assert QuartTo(x, 1) == 1.0 && QuartTo(x, 2) == 17.0 && QuartTo(x, 3) == 98.0;
    assert DotTo(x, y, 1) == 2.0 && DotTo(x, y, 2) == 10.0 && DotTo(x, y, 3) == 28.0;
    assert SqDotTo(x, y, 1) == 2.0 && SqDotTo(x, y, 2) == 18.0 && SqDotTo(x, y, 3) == 72.0;
    assert MomentsOf(x, y) == Moments(3.0, 6.0, 12.0, 14.0, 36.0, 98.0, 28.0, 72.0);
    LineDataBreaksVertex(x, y, 2.0, 0.0);
  }
}
