/** The least-squares step of calculateTDOAErrorCircle in
    utils/HyperbolaLines.cpp: the normal matrix A^T A and right-hand side
    A^T b of the linear equations of one iteration, and the solution of the
    3x3 system A^T A x = A^T b by the adjugate over the determinant. */
module Linear3 {
  import opened Common

  /** One linear equation ax*x + ay*y + az*z = b: a row of A and its entry of b. */
  datatype Equation = Equation(ax: real, ay: real, az: real, b: real)

  /** A 3x3 matrix in row-major order: a b c / d e f / g h i. */
  datatype M3 = M3(a: real, b: real, c: real, d: real, e: real, f: real, g: real, h: real, i: real)

  /** Column j (0, 1 or 2) of the equation's row of A. */
  function Coef(e: Equation, j: nat): real
  {
    if j == 0 then e.ax else if j == 1 then e.ay else e.az
  }

  /** How far p is from satisfying the equation: A-row . p - b. */
  function Residual(e: Equation, p: Coord3): real
  {
    e.ax * p.p1 + e.ay * p.p2 + e.az * p.p3 - e.b
  }

  // ---------------------------------------------------------------------
  // The normal equations

  /** AtA[j][k] after the first n rows: the sum over l < n of A[l][j] * A[l][k],
      accumulated in row order. */
  function Gram(rows: seq<Equation>, j: nat, k: nat, n: nat): real
    requires j < 3 && k < 3 && n <= |rows|
  {
    if n == 0 then 0.0 else Gram(rows, j, k, n - 1) + Coef(rows[n - 1], j) * Coef(rows[n - 1], k)
  }

  /** Atb[j] after the first n rows: the sum over l < n of A[l][j] * b[l]. */
  function Moment(rows: seq<Equation>, j: nat, n: nat): real
    requires j < 3 && n <= |rows|
  {
    if n == 0 then 0.0 else Moment(rows, j, n - 1) + Coef(rows[n - 1], j) * rows[n - 1].b
  }

  function NormalMatrix(rows: seq<Equation>): M3
  {
    var n := |rows|;
    M3(Gram(rows, 0, 0, n), Gram(rows, 0, 1, n), Gram(rows, 0, 2, n),
       Gram(rows, 1, 0, n), Gram(rows, 1, 1, n), Gram(rows, 1, 2, n),
       Gram(rows, 2, 0, n), Gram(rows, 2, 1, n), Gram(rows, 2, 2, n))
  }

  function NormalRhs(rows: seq<Equation>): Coord3
  {
    Coord3(Moment(rows, 0, |rows|), Moment(rows, 1, |rows|), Moment(rows, 2, |rows|))
  }

  predicate Symmetric(m: M3)
  {
    m.b == m.d && m.c == m.g && m.f == m.h
  }

  /** A^T A is symmetric, whatever the rows. */
  lemma {:induction false} GramSymmetric(rows: seq<Equation>, j: nat, k: nat, n: nat)
    requires j < 3 && k < 3 && n <= |rows|
    ensures Gram(rows, j, k, n) == Gram(rows, k, j, n)
  {
    if n > 0 {
      GramSymmetric(rows, j, k, n - 1);
    }
  }

  /** A diagonal entry of A^T A is a sum of squares. */
  lemma {:induction false} GramDiagonal(rows: seq<Equation>, j: nat, n: nat)
    requires j < 3 && n <= |rows|
    ensures Gram(rows, j, j, n) >= 0.0
  {
    if n > 0 {
      GramDiagonal(rows, j, n - 1);
      SquareNonNegative(Coef(rows[n - 1], j));
    }
  }

  /** The normal matrix is symmetric with a non-negative diagonal. */
  lemma NormalMatrixShape(rows: seq<Equation>)
    ensures Symmetric(NormalMatrix(rows))
    ensures NormalMatrix(rows).a >= 0.0 && NormalMatrix(rows).e >= 0.0 && NormalMatrix(rows).i >= 0.0
  {
    GramSymmetric(rows, 0, 1, |rows|);
    GramSymmetric(rows, 0, 2, |rows|);
    GramSymmetric(rows, 1, 2, |rows|);
    GramDiagonal(rows, 0, |rows|);
    GramDiagonal(rows, 1, |rows|);
    GramDiagonal(rows, 2, |rows|);
  }

  function Ax(e: Equation): real { e.ax }
  function Ay(e: Equation): real { e.ay }
  function Az(e: Equation): real { e.az }
  function B(e: Equation): real { e.b }

  /** The sum over the first n rows of u(row) * v(row). */
  function Weighted(rows: seq<Equation>, u: Equation -> real, v: Equation -> real, n: nat): real
    requires n <= |rows|
  {
    if n == 0 then 0.0 else Weighted(rows, u, v, n - 1) + u(rows[n - 1]) * v(rows[n - 1])
  }

  /** Column j of A, as a weight. */
  function CoefOf(j: nat): Equation -> real
  {
    e => Coef(e, j)
  }

  /** Row j of A^T A and entry j of A^T b are weighted sums with weight A[l][j]. */
  lemma {:induction false} GramWeighted(rows: seq<Equation>, j: nat, n: nat)
    requires j < 3 && n <= |rows|
    ensures Gram(rows, j, 0, n) == Weighted(rows, CoefOf(j), Ax, n)
    ensures Gram(rows, j, 1, n) == Weighted(rows, CoefOf(j), Ay, n)
    ensures Gram(rows, j, 2, n) == Weighted(rows, CoefOf(j), Az, n)
    ensures Moment(rows, j, n) == Weighted(rows, CoefOf(j), B, n)
  {
    if n > 0 {
      GramWeighted(rows, j, n - 1);
    }
  }

  /** Adding w times a satisfied equation to a satisfied equation gives a
      satisfied equation. */
  lemma ConsistentStep(s0: real, s1: real, s2: real, sb: real, w: real, e: Equation, x: real, y: real, z: real)
    requires Dot(s0, s1, s2, x, y, z) == sb
    requires Residual(e, Coord3(x, y, z)) == 0.0
    ensures Dot(s0 + w * Ax(e), s1 + w * Ay(e), s2 + w * Az(e), x, y, z) == sb + w * B(e)
  {
    assert w * e.ax * x + w * e.ay * y + w * e.az * z == w * (e.ax * x + e.ay * y + e.az * z);
  }

  /** Whatever the weights, the weighted sum of equations that hold at
      (x, y, z) holds there. */
  lemma {:induction false} WeightedConsistent(rows: seq<Equation>, u: Equation -> real, n: nat, x: real, y: real, z: real)
    requires n <= |rows|
    requires forall l :: 0 <= l < n ==> Residual(rows[l], Coord3(x, y, z)) == 0.0
    ensures Dot(Weighted(rows, u, Ax, n), Weighted(rows, u, Ay, n), Weighted(rows, u, Az, n), x, y, z)
            == Weighted(rows, u, B, n)
  {
    if n > 0 {
      WeightedConsistent(rows, u, n - 1, x, y, z);
      ConsistentStep(Weighted(rows, u, Ax, n - 1), Weighted(rows, u, Ay, n - 1), Weighted(rows, u, Az, n - 1),
                     Weighted(rows, u, B, n - 1), u(rows[n - 1]), rows[n - 1], x, y, z);
    }
  }

  /** When p satisfies every equation, row j of A^T A times p is Atb[j]. */
  lemma NormalRowConsistent(rows: seq<Equation>, j: nat, x: real, y: real, z: real)
    requires j < 3
    requires forall l :: 0 <= l < |rows| ==> Residual(rows[l], Coord3(x, y, z)) == 0.0
    ensures Dot(Gram(rows, j, 0, |rows|), Gram(rows, j, 1, |rows|), Gram(rows, j, 2, |rows|), x, y, z) == Moment(rows, j, |rows|)
  {
    GramWeighted(rows, j, |rows|);
    WeightedConsistent(rows, CoefOf(j), |rows|, x, y, z);
  }

  /** A point satisfying every equation satisfies the normal equations. */
  lemma NormalConsistent(rows: seq<Equation>, p: Coord3)
    requires forall l :: 0 <= l < |rows| ==> Residual(rows[l], p) == 0.0
    ensures Mul(NormalMatrix(rows), p) == NormalRhs(rows)
  {
    assert p == Coord3(p.p1, p.p2, p.p3);
    NormalRowConsistent(rows, 0, p.p1, p.p2, p.p3);
    NormalRowConsistent(rows, 1, p.p1, p.p2, p.p3);
    NormalRowConsistent(rows, 2, p.p1, p.p2, p.p3);
  }

  /** The triple loop filling AtA and the double loop filling Atb, on the
      fixed-size arrays the source declares. */
  method NormalEquations(rows: seq<Equation>) returns (ata: array2<real>, atb: array<real>)
    ensures fresh(ata) && fresh(atb)
    ensures ata.Length0 == 3 && ata.Length1 == 3 && atb.Length == 3
    ensures forall j, k :: 0 <= j < 3 && 0 <= k < 3 ==> ata[j, k] == Gram(rows, j, k, |rows|)
    ensures forall j :: 0 <= j < 3 ==> atb[j] == Moment(rows, j, |rows|)
  {
    ata := new real[3, 3]((_, _) => 0.0);
    for j := 0 to 3
      modifies ata
      invariant forall j', k' :: 0 <= j' < 3 && 0 <= k' < 3 ==>
                  ata[j', k'] == if j' < j then Gram(rows, j', k', |rows|) else 0.0
    {
      for k := 0 to 3
        modifies ata
        invariant forall j', k' :: 0 <= j' < 3 && 0 <= k' < 3 ==>
                    ata[j', k'] == if j' < j || (j' == j && k' < k) then Gram(rows, j', k', |rows|) else 0.0
      {
        for l := 0 to |rows|
          modifies ata
          invariant ata[j, k] == Gram(rows, j, k, l)
          invariant forall j', k' :: 0 <= j' < 3 && 0 <= k' < 3 && (j' != j || k' != k) ==>
                      ata[j', k'] == if j' < j || (j' == j && k' < k) then Gram(rows, j', k', |rows|) else 0.0
        {
          ata[j, k] := ata[j, k] + Coef(rows[l], j) * Coef(rows[l], k);
        }
      }
    }
    atb := new real[3](_ => 0.0);
    for j := 0 to 3
      modifies atb
      invariant forall j' :: 0 <= j' < 3 ==> atb[j'] == if j' < j then Moment(rows, j', |rows|) else 0.0
    {
      for l := 0 to |rows|
        modifies atb
        invariant atb[j] == Moment(rows, j, l)
        invariant forall j' :: 0 <= j' < 3 && j' != j ==> atb[j'] == if j' < j then Moment(rows, j', |rows|) else 0.0
      {
        atb[j] := atb[j] + Coef(rows[l], j) * rows[l].b;
      }
    }
  }

  // ---------------------------------------------------------------------
  // The 3x3 solve

  /** The determinant, expanded along the first row as the source writes it. */
  function Det(m: M3): real
  {
    m.a * (m.e * m.i - m.f * m.h) - m.b * (m.d * m.i - m.f * m.g) + m.c * (m.d * m.h - m.e * m.g)
  }

  /** The adjugate: the entries of invAtA before the division by det. */
  function Adj(m: M3): M3
  {
    M3(m.e * m.i - m.f * m.h, m.c * m.h - m.b * m.i, m.b * m.f - m.c * m.e,
       m.f * m.g - m.d * m.i, m.a * m.i - m.c * m.g, m.c * m.d - m.a * m.f,
       m.d * m.h - m.e * m.g, m.b * m.g - m.a * m.h, m.a * m.e - m.b * m.d)
  }

  function Dot(p: real, q: real, r: real, x: real, y: real, z: real): real
  {
    p * x + q * y + r * z
  }

  /** The matrix times a vector. */
  function Mul(m: M3, v: Coord3): Coord3
  {
    Coord3(Dot(m.a, m.b, m.c, v.p1, v.p2, v.p3), Dot(m.d, m.e, m.f, v.p1, v.p2, v.p3),
           Dot(m.g, m.h, m.i, v.p1, v.p2, v.p3))
  }

  /** x = invAtA * Atb, invAtA being the adjugate with every entry divided
      by the determinant. */
  function Solve(m: M3, v: Coord3): Coord3
    requires Det(m) != 0.0
  {
    var n, t := Adj(m), Det(m);
    Coord3(Dot(n.a / t, n.b / t, n.c / t, v.p1, v.p2, v.p3),
           Dot(n.d / t, n.e / t, n.f / t, v.p1, v.p2, v.p3),
           Dot(n.g / t, n.h / t, n.i / t, v.p1, v.p2, v.p3))
  }

  lemma Distrib(p: real, x: real, y: real, z: real, w: real)
    ensures p * (x * y - z * w) == p * x * y - p * z * w
  {}

  lemma Row0Diagonal(a: real, b: real, c: real, d: real, e: real, f: real, g: real, h: real, i: real)
    ensures Dot(a, b, c, e * i - f * h, f * g - d * i, d * h - e * g) ==
            a * (e * i - f * h) - b * (d * i - f * g) + c * (d * h - e * g)
  {
    assert a * (e * i - f * h) == a * (e * i) - a * (f * h);
    assert b * (d * i - f * g) == b * (d * i) - b * (f * g);
    assert c * (d * h - e * g) == c * (d * h) - c * (e * g);
    assert b * (f * g - d * i) == b * (f * g) - b * (d * i);
  }

  lemma Row1Diagonal(a: real, b: real, c: real, d: real, e: real, f: real, g: real, h: real, i: real)
    ensures Dot(d, e, f, c * h - b * i, a * i - c * g, b * g - a * h) ==
            a * (e * i - f * h) - b * (d * i - f * g) + c * (d * h - e * g)
  {
    assert a * (e * i - f * h) == a * (e * i) - a * (f * h);
    assert b * (d * i - f * g) == b * (d * i) - b * (f * g);
    assert c * (d * h - e * g) == c * (d * h) - c * (e * g);
    assert d * (c * h - b * i) == c * (d * h) - b * (d * i);
    assert e * (a * i - c * g) == a * (e * i) - c * (e * g);
    assert f * (b * g - a * h) == b * (f * g) - a * (f * h);
  }

  lemma Row2Diagonal(a: real, b: real, c: real, d: real, e: real, f: real, g: real, h: real, i: real)
    ensures Dot(g, h, i, b * f - c * e, c * d - a * f, a * e - b * d) ==
            a * (e * i - f * h) - b * (d * i - f * g) + c * (d * h - e * g)
  {
    assert a * (e * i - f * h) == a * (e * i) - a * (f * h);
    assert b * (d * i - f * g) == b * (d * i) - b * (f * g);
    assert c * (d * h - e * g) == c * (d * h) - c * (e * g);
    assert g * (b * f - c * e) == b * (f * g) - c * (e * g);
    assert h * (c * d - a * f) == c * (d * h) - a * (f * h);
    assert i * (a * e - b * d) == a * (e * i) - b * (d * i);
  }

  /** Row r of the matrix times column c of the adjugate is det when r == c
      and zero otherwise: the nine entries of m * Adj(m) == det * I. */
  lemma Entry00(m: M3)
    ensures Dot(m.a, m.b, m.c, Adj(m).a, Adj(m).d, Adj(m).g) == Det(m)
  {
    assert Adj(m).a == m.e * m.i - m.f * m.h;
    assert Adj(m).d == m.f * m.g - m.d * m.i;
    assert Adj(m).g == m.d * m.h - m.e * m.g;
    Row0Diagonal(m.a, m.b, m.c, m.d, m.e, m.f, m.g, m.h, m.i);
  }

  lemma Entry01(m: M3)
    ensures Dot(m.a, m.b, m.c, Adj(m).b, Adj(m).e, Adj(m).h) == 0.0
  {
    Distrib(m.a, m.c, m.h, m.b, m.i);
    Distrib(m.b, m.a, m.i, m.c, m.g);
    Distrib(m.c, m.b, m.g, m.a, m.h);
    assert m.b * m.a * m.i == m.a * m.b * m.i;
    assert m.c * m.b * m.g == m.b * m.c * m.g;
    assert m.c * m.a * m.h == m.a * m.c * m.h;
  }

  lemma Entry02(m: M3)
    ensures Dot(m.a, m.b, m.c, Adj(m).c, Adj(m).f, Adj(m).i) == 0.0
  {
    Distrib(m.a, m.b, m.f, m.c, m.e);
    Distrib(m.b, m.c, m.d, m.a, m.f);
    Distrib(m.c, m.a, m.e, m.b, m.d);
    assert m.b * m.a * m.f == m.a * m.b * m.f;
    assert m.c * m.a * m.e == m.a * m.c * m.e;
    assert m.c * m.b * m.d == m.b * m.c * m.d;
  }

  lemma Entry10(m: M3)
    ensures Dot(m.d, m.e, m.f, Adj(m).a, Adj(m).d, Adj(m).g) == 0.0
  {
    Distrib(m.d, m.e, m.i, m.f, m.h);
    Distrib(m.e, m.f, m.g, m.d, m.i);
    Distrib(m.f, m.d, m.h, m.e, m.g);
    assert m.e * m.d * m.i == m.d * m.e * m.i;
    assert m.f * m.d * m.h == m.d * m.f * m.h;
    assert m.f * m.e * m.g == m.e * m.f * m.g;
  }

  lemma Entry11(m: M3)
    ensures Dot(m.d, m.e, m.f, Adj(m).b, Adj(m).e, Adj(m).h) == Det(m)
  {
    assert Adj(m).b == m.c * m.h - m.b * m.i;
    assert Adj(m).e == m.a * m.i - m.c * m.g;
    assert Adj(m).h == m.b * m.g - m.a * m.h;
    Row1Diagonal(m.a, m.b, m.c, m.d, m.e, m.f, m.g, m.h, m.i);
  }

  lemma Entry12(m: M3)
    ensures Dot(m.d, m.e, m.f, Adj(m).c, Adj(m).f, Adj(m).i) == 0.0
  {
    Distrib(m.d, m.b, m.f, m.c, m.e);
    Distrib(m.e, m.c, m.d, m.a, m.f);
    Distrib(m.f, m.a, m.e, m.b, m.d);
    assert m.d * m.b * m.f == m.b * m.d * m.f;
    assert m.d * m.c * m.e == m.c * m.d * m.e;
    assert m.e * m.c * m.d == m.c * m.d * m.e;
    assert m.e * m.a * m.f == m.a * m.e * m.f;
    assert m.f * m.a * m.e == m.a * m.e * m.f;
    assert m.f * m.b * m.d == m.b * m.d * m.f;
  }

  lemma Entry20(m: M3)
    ensures Dot(m.g, m.h, m.i, Adj(m).a, Adj(m).d, Adj(m).g) == 0.0
  {
    Distrib(m.g, m.e, m.i, m.f, m.h);
    Distrib(m.h, m.f, m.g, m.d, m.i);
    Distrib(m.i, m.d, m.h, m.e, m.g);
    assert m.g * m.e * m.i == m.e * m.g * m.i;
    assert m.g * m.f * m.h == m.f * m.g * m.h;
    assert m.h * m.f * m.g == m.f * m.g * m.h;
    assert m.h * m.d * m.i == m.d * m.h * m.i;
    assert m.i * m.d * m.h == m.d * m.h * m.i;
    assert m.i * m.e * m.g == m.e * m.g * m.i;
  }

  lemma Entry21(m: M3)
    ensures Dot(m.g, m.h, m.i, Adj(m).b, Adj(m).e, Adj(m).h) == 0.0
  {
    Distrib(m.g, m.c, m.h, m.b, m.i);
    Distrib(m.h, m.a, m.i, m.c, m.g);
    Distrib(m.i, m.b, m.g, m.a, m.h);
    assert m.g * m.c * m.h == m.c * m.g * m.h;
    assert m.g * m.b * m.i == m.b * m.g * m.i;
    assert m.h * m.a * m.i == m.a * m.h * m.i;
    assert m.h * m.c * m.g == m.c * m.g * m.h;
    assert m.i * m.b * m.g == m.b * m.g * m.i;
    assert m.i * m.a * m.h == m.a * m.h * m.i;
  }

  lemma Entry22(m: M3)
    ensures Dot(m.g, m.h, m.i, Adj(m).c, Adj(m).f, Adj(m).i) == Det(m)
  {
    assert Adj(m).c == m.b * m.f - m.c * m.e;
    assert Adj(m).f == m.c * m.d - m.a * m.f;
    assert Adj(m).i == m.a * m.e - m.b * m.d;
    Row2Diagonal(m.a, m.b, m.c, m.d, m.e, m.f, m.g, m.h, m.i);
  }

  lemma Scaled(p: real, q: real, r: real, x: real, y: real, z: real, t: real)
    requires t != 0.0
    ensures Dot(p / t, q / t, r / t, x, y, z) == Dot(p, q, r, x, y, z) / t
  {}

  /** A row whose products with the adjugate's columns are (cx, cy, cz) * t
      maps Adj(m) v / t to (cx, cy, cz) . v. */
  lemma RowSolved(p: real, q: real, r: real, n: M3, v: Coord3, t: real, cx: real, cy: real, cz: real)
    requires t != 0.0
    requires Dot(p, q, r, n.a, n.d, n.g) == cx * t
    requires Dot(p, q, r, n.b, n.e, n.h) == cy * t
    requires Dot(p, q, r, n.c, n.f, n.i) == cz * t
    ensures Dot(p, q, r, Dot(n.a, n.b, n.c, v.p1, v.p2, v.p3) / t, Dot(n.d, n.e, n.f, v.p1, v.p2, v.p3) / t,
                Dot(n.g, n.h, n.i, v.p1, v.p2, v.p3) / t) == cx * v.p1 + cy * v.p2 + cz * v.p3
  {
    var u0, u1, u2 := Dot(n.a, n.b, n.c, v.p1, v.p2, v.p3), Dot(n.d, n.e, n.f, v.p1, v.p2, v.p3),
                      Dot(n.g, n.h, n.i, v.p1, v.p2, v.p3);
    Regroup(p, q, r, n, v);
    ScaledSum(v.p1, v.p2, v.p3, Dot(p, q, r, n.a, n.d, n.g), Dot(p, q, r, n.b, n.e, n.h),
              Dot(p, q, r, n.c, n.f, n.i), cx, cy, cz, t);
    DivideThrough(p, q, r, u0, u1, u2, t, cx * v.p1 + cy * v.p2 + cz * v.p3);
  }

  /** Row (p, q, r) times the column of rows of n applied to v, summed the
      other way round. */
  lemma Regroup(p: real, q: real, r: real, n: M3, v: Coord3)
    ensures Dot(p, q, r, Dot(n.a, n.b, n.c, v.p1, v.p2, v.p3), Dot(n.d, n.e, n.f, v.p1, v.p2, v.p3),
                Dot(n.g, n.h, n.i, v.p1, v.p2, v.p3))
            == Dot(Dot(p, q, r, n.a, n.d, n.g), Dot(p, q, r, n.b, n.e, n.h), Dot(p, q, r, n.c, n.f, n.i),
                   v.p1, v.p2, v.p3)
  {
  }

  lemma ScaledSum(x: real, y: real, z: real, d0: real, d1: real, d2: real, cx: real, cy: real, cz: real, t: real)
    requires d0 == cx * t && d1 == cy * t && d2 == cz * t
    ensures Dot(d0, d1, d2, x, y, z) == (cx * x + cy * y + cz * z) * t
  {
  }

  lemma DivideThrough(p: real, q: real, r: real, u0: real, u1: real, u2: real, t: real, c: real)
    requires t != 0.0 && Dot(p, q, r, u0, u1, u2) == c * t
    ensures Dot(p, q, r, u0 / t, u1 / t, u2 / t) == c
  {
    assert Dot(p, q, r, u0 / t, u1 / t, u2 / t) * t == Dot(p, q, r, u0, u1, u2);
  }

  /** With a nonzero determinant the computed x solves AtA * x = Atb. */
  lemma {:induction false} SolveSolves(m: M3, v: Coord3)
    requires Det(m) != 0.0
    ensures Mul(m, Solve(m, v)) == v
  {
    var n, t := Adj(m), Det(m);
    Scaled(n.a, n.b, n.c, v.p1, v.p2, v.p3, t);
    Scaled(n.d, n.e, n.f, v.p1, v.p2, v.p3, t);
    Scaled(n.g, n.h, n.i, v.p1, v.p2, v.p3, t);
    Entry00(m); Entry01(m); Entry02(m);
    RowSolved(m.a, m.b, m.c, n, v, t, 1.0, 0.0, 0.0);
    Entry10(m); Entry11(m); Entry12(m);
    RowSolved(m.d, m.e, m.f, n, v, t, 0.0, 1.0, 0.0);
    Entry20(m); Entry21(m); Entry22(m);
    RowSolved(m.g, m.h, m.i, n, v, t, 0.0, 0.0, 1.0);
  }

  /** The adjugate of a symmetric matrix is symmetric. */
  lemma AdjSymmetric(m: M3)
    requires Symmetric(m)
    ensures Symmetric(Adj(m))
  {
    assert m.c * m.h == m.f * m.g;
    assert m.b * m.f == m.d * m.h;
    assert m.c * m.d == m.b * m.g;
  }

  /** The adjugate row (u0, u1, u2) applied to m * p, when its products with
      the columns of m are (cx, cy, cz) * t. */
  lemma RowRecovered(u0: real, u1: real, u2: real, m: M3, p: Coord3, t: real, cx: real, cy: real, cz: real)
    requires Dot(u0, u1, u2, m.a, m.d, m.g) == cx * t
    requires Dot(u0, u1, u2, m.b, m.e, m.h) == cy * t
    requires Dot(u0, u1, u2, m.c, m.f, m.i) == cz * t
    ensures Dot(u0, u1, u2, Mul(m, p).p1, Mul(m, p).p2, Mul(m, p).p3) == (cx * p.p1 + cy * p.p2 + cz * p.p3) * t
  {
    var s := u0 * Dot(m.a, m.b, m.c, p.p1, p.p2, p.p3) + u1 * Dot(m.d, m.e, m.f, p.p1, p.p2, p.p3) +
             u2 * Dot(m.g, m.h, m.i, p.p1, p.p2, p.p3);
    assert s == p.p1 * Dot(u0, u1, u2, m.a, m.d, m.g) + p.p2 * Dot(u0, u1, u2, m.b, m.e, m.h) +
                p.p3 * Dot(u0, u1, u2, m.c, m.f, m.i);
  }

  /** For a symmetric matrix with nonzero determinant the solve is the only
      solution: solving m * p == v gives back p. */
  lemma {:induction false} SolveUnique(m: M3, p: Coord3)
    requires Symmetric(m) && Det(m) != 0.0
    ensures Solve(m, Mul(m, p)) == p
  {
    var n, t := Adj(m), Det(m);
    AdjSymmetric(m);
    Entry00(m); Entry10(m); Entry20(m);
    ComponentRecovered(n.a, n.b, n.c, m, p, t, 1.0, 0.0, 0.0);
    Entry01(m); Entry11(m); Entry21(m);
    ComponentRecovered(n.d, n.e, n.f, m, p, t, 0.0, 1.0, 0.0);
    Entry02(m); Entry12(m); Entry22(m);
    ComponentRecovered(n.g, n.h, n.i, m, p, t, 0.0, 0.0, 1.0);
  }

  /** One component of the solve of m * p: the adjugate row divided by t
      applied to m * p. */
  lemma ComponentRecovered(u0: real, u1: real, u2: real, m: M3, p: Coord3, t: real, cx: real, cy: real, cz: real)
    requires t != 0.0
    requires Dot(u0, u1, u2, m.a, m.d, m.g) == cx * t
    requires Dot(u0, u1, u2, m.b, m.e, m.h) == cy * t
    requires Dot(u0, u1, u2, m.c, m.f, m.i) == cz * t
    ensures Dot(u0 / t, u1 / t, u2 / t, Mul(m, p).p1, Mul(m, p).p2, Mul(m, p).p3) == cx * p.p1 + cy * p.p2 + cz * p.p3
  {
    var v := Mul(m, p);
    Scaled(u0, u1, u2, v.p1, v.p2, v.p3, t);
    RowRecovered(u0, u1, u2, m, p, t, cx, cy, cz);
  }
}
