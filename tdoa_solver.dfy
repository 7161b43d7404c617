/** The numerical core of models/src/TDOAalgorithm.cpp: the hand-written
    linear algebra (products, transpose, Gaussian elimination with partial
    pivoting), Chan's initial estimate and the Taylor refinement loop.
    Matrices are vectors of rows, as in the source. */
module TdoaSolver {
  import opened Common

  type Matrix = seq<seq<real>>

  /** A pivot whose magnitude is below this makes the system singular. */
  const PivotTolerance: real := 0.000000000001

  /** u[lo]*v[lo] + ... + u[hi-1]*v[hi-1], accumulated left to right. */
  function SumRange(u: seq<real>, v: seq<real>, lo: int, hi: int): real
    requires 0 <= lo <= hi <= |u| && hi <= |v|
    decreases hi - lo
  {
    if lo == hi then 0.0 else SumRange(u, v, lo, hi - 1) + u[hi - 1] * v[hi - 1]
  }

  /** A sum splits at any midpoint. */
  lemma {:induction false} SumRangeSplit(u: seq<real>, v: seq<real>, lo: int, mid: int, hi: int)
    requires 0 <= lo <= mid <= hi <= |u| && hi <= |v|
    ensures SumRange(u, v, lo, hi) == SumRange(u, v, lo, mid) + SumRange(u, v, mid, hi)
    decreases hi - mid
  {
    if mid < hi {
      SumRangeSplit(u, v, lo, mid, hi - 1);
    }
  }

  /** Only the entries in [lo, hi) matter. */
  lemma {:induction false} SumRangeAgree(u: seq<real>, v: seq<real>, u': seq<real>, v': seq<real>, lo: int, hi: int)
    requires 0 <= lo <= hi <= |u| && hi <= |v| && hi <= |u'| && hi <= |v'|
    requires forall j :: lo <= j < hi ==> u[j] == u'[j] && v[j] == v'[j]
    ensures SumRange(u, v, lo, hi) == SumRange(u', v', lo, hi)
    decreases hi - lo
  {
    if lo < hi {
      SumRangeAgree(u, v, u', v', lo, hi - 1);
    }
  }

  /** A stretch of zero coefficients contributes nothing. */
  lemma {:induction false} SumRangeZero(u: seq<real>, v: seq<real>, lo: int, hi: int)
    requires 0 <= lo <= hi <= |u| && hi <= |v|
    requires forall j :: lo <= j < hi ==> u[j] == 0.0
    ensures SumRange(u, v, lo, hi) == 0.0
    decreases hi - lo
  {
    if lo < hi {
      SumRangeZero(u, v, lo, hi - 1);
    }
  }

  /** Subtracting a multiple of one coefficient row subtracts that multiple
      of its sum. */
  lemma {:induction false} SumRangeRowOp(u: seq<real>, w: seq<real>, u': seq<real>, f: real, v: seq<real>, lo: int, hi: int)
    requires 0 <= lo <= hi <= |u| && hi <= |w| && hi <= |u'| && hi <= |v|
    requires forall j :: lo <= j < hi ==> u'[j] == u[j] - f * w[j]
    ensures SumRange(u', v, lo, hi) == SumRange(u, v, lo, hi) - f * SumRange(w, v, lo, hi)
    decreases hi - lo
  {
    if lo < hi {
      SumRangeRowOp(u, w, u', f, v, lo, hi - 1);
      RowOpTerm(u[hi - 1], w[hi - 1], f, v[hi - 1]);
      Distribute(f, SumRange(w, v, lo, hi - 1), w[hi - 1] * v[hi - 1]);
    }
  }

  lemma RowOpTerm(a: real, b: real, f: real, x: real)
    ensures (a - f * b) * x == a * x - f * (b * x)
  {
  }

  lemma Distribute(f: real, a: real, b: real)
    ensures f * (a + b) == f * a + f * b
  {
  }

  // ---------------------------------------------------------------------
  // Products and transpose

  /** Every row has at least `cols` entries, as indexing A[i][j] for
      j < cols demands. */
  predicate RowsAtLeast(A: Matrix, cols: int)
  {
    forall i :: 0 <= i < |A| ==> |A[i]| >= cols
  }

  /** multiplyMatrixVector: an empty A gives the empty vector; the width of
      A's first row must equal |B|; otherwise C[i] = sum_j A[i][j]*B[j]. */
  method MultiplyMatrixVector(A: Matrix, B: seq<real>) returns (r: Result<seq<real>>)
    requires |A| > 0 ==> RowsAtLeast(A, |A[0]|)
    ensures |A| == 0 ==> r == Ok([])
    ensures |A| > 0 && |A[0]| != |B| ==> r.Err?
    ensures |A| > 0 && |A[0]| == |B| ==>
              r.Ok? && |r.value| == |A| && forall i :: 0 <= i < |A| ==> r.value[i] == SumRange(A[i], B, 0, |B|)
  {
    var rowsA := |A|;
    if rowsA == 0 {
      return Ok([]);
    }
    var colsA := |A[0]|;
    if colsA != |B| {
      return Err("Matrix-vector multiplication dimension mismatch.");
    }
    var C := seq(rowsA, _ => 0.0);
    var i := 0;
    while i < rowsA
      invariant 0 <= i <= rowsA && |C| == rowsA
      invariant forall k :: 0 <= k < i ==> C[k] == SumRange(A[k], B, 0, colsA)
      invariant forall k :: i <= k < rowsA ==> C[k] == 0.0
    {
      ghost var before := C;
      var j := 0;
      while j < colsA
        invariant 0 <= j <= colsA && |C| == rowsA
        invariant C[i] == SumRange(A[i], B, 0, j)
        invariant forall k :: 0 <= k < rowsA && k != i ==> C[k] == before[k]
      {
        C := C[i := C[i] + A[i][j] * B[j]];
        j := j + 1;
      }
      i := i + 1;
    }
    return Ok(C);
  }

  /** Column j of B. */
  function Column(B: Matrix, j: int): seq<real>
    requires 0 <= j && RowsAtLeast(B, j + 1)
  {
    seq(|B|, k requires 0 <= k < |B| => B[k][j])
  }

  /** multiplyMatrixMatrix: an empty A or B gives the empty matrix; the
      width of A must equal the height of B; otherwise C is rows(A) x
      cols(B) with C[i][j] = sum_k A[i][k]*B[k][j]. */
  method MultiplyMatrixMatrix(A: Matrix, B: Matrix) returns (r: Result<Matrix>)
    requires |A| > 0 ==> RowsAtLeast(A, |A[0]|)
    requires |B| > 0 ==> RowsAtLeast(B, |B[0]|)
    ensures |A| == 0 || |B| == 0 ==> r == Ok([])
    ensures |A| > 0 && |B| > 0 && |A[0]| != |B| ==> r.Err?
    ensures |A| > 0 && |B| > 0 && |A[0]| == |B| ==>
              r.Ok? && |r.value| == |A| &&
              (forall i :: 0 <= i < |A| ==> |r.value[i]| == |B[0]|) &&
              forall i, j :: 0 <= i < |A| && 0 <= j < |B[0]| ==>
                r.value[i][j] == SumRange(A[i], Column(B, j), 0, |B|)
  {
    var rowsA := |A|;
    if rowsA == 0 {
      return Ok([]);
    }
    var colsA := |A[0]|;
    var rowsB := |B|;
    if rowsB == 0 {
      return Ok([]);
    }
    var colsB := |B[0]|;
    if colsA != rowsB {
      return Err("Matrix-matrix multiplication dimension mismatch.");
    }
    var C: Matrix := seq(rowsA, _ => seq(colsB, _ => 0.0));
    var i := 0;
    while i < rowsA
      invariant 0 <= i <= rowsA && |C| == rowsA
      invariant forall k :: 0 <= k < rowsA ==> |C[k]| == colsB
      invariant forall k, j :: 0 <= k < i && 0 <= j < colsB ==> C[k][j] == SumRange(A[k], Column(B, j), 0, colsA)
      invariant forall k, j :: i <= k < rowsA && 0 <= j < colsB ==> C[k][j] == 0.0
    {
      var row := C[i];
      var j := 0;
      while j < colsB
        invariant 0 <= j <= colsB && |row| == colsB
        invariant forall l :: 0 <= l < j ==> row[l] == SumRange(A[i], Column(B, l), 0, colsA)
        invariant forall l :: j <= l < colsB ==> row[l] == 0.0
      {
        var k := 0;
        while k < colsA
          invariant 0 <= k <= colsA && |row| == colsB
          invariant row[j] == SumRange(A[i], Column(B, j), 0, k)
          invariant forall l :: 0 <= l < colsB && l != j ==> row[l] == if l < j then SumRange(A[i], Column(B, l), 0, colsA) else 0.0
        {
          row := row[j := row[j] + A[i][k] * B[k][j]];
          k := k + 1;
        }
        j := j + 1;
      }
      C := C[i := row];
      i := i + 1;
    }
    return Ok(C);
  }

  /** The transpose of a non-empty matrix: T[j][i] = A[i][j]; an empty
      matrix, or one whose first row is empty, gives the empty matrix. */
  function Transposed(A: Matrix): (T: Matrix)
    requires |A| > 0 ==> RowsAtLeast(A, |A[0]|)
    ensures |A| == 0 || |A[0]| == 0 ==> T == []
    ensures |A| > 0 && |A[0]| > 0 ==>
              |T| == |A[0]| && (forall j :: 0 <= j < |T| ==> |T[j]| == |A|) &&
              forall j, i :: 0 <= j < |T| && 0 <= i < |A| ==> T[j][i] == A[i][j]
  {
    if |A| == 0 || |A[0]| == 0 then []
    else seq(|A[0]|, j requires 0 <= j < |A[0]| => seq(|A|, i requires 0 <= i < |A| => A[i][j]))
  }

  /** transposeMatrix. */
  method TransposeMatrix(A: Matrix) returns (T: Matrix)
    requires |A| > 0 ==> RowsAtLeast(A, |A[0]|)
    ensures T == Transposed(A)
  {
    if |A| == 0 || |A[0]| == 0 {
      return [];
    }
    var rows := |A|;
    var cols := |A[0]|;
    T := seq(cols, _ => seq(rows, _ => 0.0));
    var i := 0;
    while i < rows
      invariant 0 <= i <= rows && |T| == cols
      invariant forall j :: 0 <= j < cols ==> |T[j]| == rows
      invariant forall j, k :: 0 <= j < cols && 0 <= k < i ==> T[j][k] == A[k][j]
    {
      var j := 0;
      while j < cols
        invariant 0 <= j <= cols && |T| == cols
        invariant forall l :: 0 <= l < cols ==> |T[l]| == rows
        invariant forall l, k :: 0 <= l < cols && 0 <= k < i ==> T[l][k] == A[k][l]
        invariant forall l :: 0 <= l < j ==> T[l][i] == A[i][l]
      {
        T := T[j := T[j][i := A[i][j]]];
        j := j + 1;
      }
      i := i + 1;
    }
    var R := Transposed(A);
    forall j | 0 <= j < cols
      ensures T[j] == R[j]
    {
      assert |T[j]| == |R[j]|;
    }
  }

  /** Every row has exactly the width of the first. */
  predicate Rectangular(A: Matrix)
  {
    |A| > 0 && forall i :: 0 <= i < |A| ==> |A[i]| == |A[0]|
  }

  /** Transposing a non-empty rectangular matrix twice gives it back. */
  lemma TransposeTwice(A: Matrix)
    requires Rectangular(A) && |A[0]| > 0
    ensures Transposed(Transposed(A)) == A
  {
    var T := Transposed(A);
    var TT := Transposed(T);
    assert |TT| == |A|;
    forall i | 0 <= i < |A|
      ensures TT[i] == A[i]
    {
      assert |TT[i]| == |A[i]|;
      forall j | 0 <= j < |A[i]|
        ensures TT[i][j] == A[i][j]
      {
        assert TT[i][j] == T[j][i];
      }
    }
  }

  // ---------------------------------------------------------------------
  // Gaussian elimination with partial pivoting (solveLinearSystem)

  /** n equations in n unknowns: A has n rows of at least n coefficients
      and b at least n entries. */
  predicate SquareSystem(A: Matrix, b: seq<real>, n: int)
  {
    |A| == n && |b| >= n && RowsAtLeast(A, n)
  }

  /** x satisfies every equation: sum_j A[r][j]*x[j] == b[r]. */
  predicate Solves(A: Matrix, b: seq<real>, x: seq<real>, n: int)
    requires SquareSystem(A, b, n)
  {
    |x| == n && forall r :: 0 <= r < n ==> SumRange(A[r], x, 0, n) == b[r]
  }

  /** (A, b) and (A0, b0) have exactly the same solutions. */
  ghost predicate SameSolutions(A: Matrix, b: seq<real>, A0: Matrix, b0: seq<real>, n: int)
    requires SquareSystem(A, b, n) && SquareSystem(A0, b0, n)
  {
    forall x :: Solves(A, b, x, n) <==> Solves(A0, b0, x, n)
  }

  function Swap<T>(s: seq<T>, i: int, j: int): (r: seq<T>)
    requires 0 <= i < |s| && 0 <= j < |s|
    ensures |r| == |s| && r[i] == s[j] && r[j] == s[i]
    ensures forall k :: 0 <= k < |s| && k != i && k != j ==> r[k] == s[k]
    ensures multiset(r) == multiset(s)
  {
    s[i := s[j]][j := s[i]]
  }

  /** Swapping two equations keeps exactly the same solutions. */
  lemma SwapKeepsSolutions(A: Matrix, b: seq<real>, i: int, j: int, n: int)
    requires SquareSystem(A, b, n) && 0 <= i < n && 0 <= j < n
    ensures SquareSystem(Swap(A, i, j), Swap(b, i, j), n)
    ensures SameSolutions(Swap(A, i, j), Swap(b, i, j), A, b, n)
  {
    var A', b' := Swap(A, i, j), Swap(b, i, j);
    forall x | Solves(A', b', x, n)
      ensures Solves(A, b, x, n)
    {
      forall r | 0 <= r < n
        ensures SumRange(A[r], x, 0, n) == b[r]
      {
        var r' := if r == i then j else if r == j then i else r;
        assert A'[r'] == A[r] && b'[r'] == b[r];
      }
    }
    forall x | Solves(A, b, x, n)
      ensures Solves(A', b', x, n)
    {
      forall r | 0 <= r < n
        ensures SumRange(A'[r], x, 0, n) == b'[r]
      {
        var r' := if r == i then j else if r == j then i else r;
        assert A'[r] == A[r'] && b'[r] == b[r'];
      }
    }
  }

  /** Replacing equation k by itself minus f times equation i keeps
      exactly the same solutions. */
  lemma RowOpKeepsSolutions(A: Matrix, b: seq<real>, k: int, i: int, f: real, row: seq<real>, n: int)
    requires SquareSystem(A, b, n) && 0 <= i < n && 0 <= k < n && k != i
    requires |row| >= n && forall j :: 0 <= j < n ==> row[j] == A[k][j] - f * A[i][j]
    ensures SquareSystem(A[k := row], b[k := b[k] - f * b[i]], n)
    ensures SameSolutions(A[k := row], b[k := b[k] - f * b[i]], A, b, n)
  {
    var A', b' := A[k := row], b[k := b[k] - f * b[i]];
    forall x | Solves(A', b', x, n)
      ensures Solves(A, b, x, n)
    {
      assert SumRange(A'[i], x, 0, n) == b'[i];
      SumRangeRowOp(A[k], A[i], row, f, x, 0, n);
      forall r | 0 <= r < n
        ensures SumRange(A[r], x, 0, n) == b[r]
      {
        if r != k {
          assert A'[r] == A[r] && b'[r] == b[r];
        } else {
          assert A'[k] == row && A'[i] == A[i] && b'[i] == b[i];
          assert SumRange(row, x, 0, n) == b[k] - f * b[i];
        }
      }
    }
    forall x | Solves(A, b, x, n)
      ensures Solves(A', b', x, n)
    {
      SumRangeRowOp(A[k], A[i], row, f, x, 0, n);
      forall r | 0 <= r < n
        ensures SumRange(A'[r], x, 0, n) == b'[r]
      {
        if r != k {
          assert A'[r] == A[r] && b'[r] == b[r];
        } else {
          assert SumRange(A[k], x, 0, n) == b[k] && SumRange(A[i], x, 0, n) == b[i];
        }
      }
    }
  }

  /** The pivot search over rows i to hi - 1: the first row whose entry in
      column i has the largest magnitude (a later row replaces the current
      one only when strictly larger). */
  function PivotRow(A: Matrix, i: int, hi: int): (p: int)
    requires 0 <= i < hi <= |A| && RowsAtLeast(A, i + 1)
    ensures i <= p < hi
    ensures forall k :: i <= k < hi ==> Abs(A[k][i]) <= Abs(A[p][i])
    ensures forall k :: i <= k < p ==> Abs(A[k][i]) < Abs(A[p][i])
    decreases hi
  {
    if hi == i + 1 then i
    else
      var p := PivotRow(A, i, hi - 1);
      if Abs(A[hi - 1][i]) > Abs(A[p][i]) then hi - 1 else p
  }

  /** The loop that chooses max_row. */
  method SelectPivot(A: Matrix, i: int, n: int) returns (maxRow: int)
    requires |A| == n && RowsAtLeast(A, n) && 0 <= i < n
    ensures maxRow == PivotRow(A, i, n)
  {
    maxRow := i;
    var k := i + 1;
    while k < n
      invariant i + 1 <= k <= n && maxRow == PivotRow(A, i, k)
    {
      if Abs(A[k][i]) > Abs(A[maxRow][i]) {
        maxRow := k;
      }
      k := k + 1;
    }
  }

  /** The innermost loop: row[j] -= factor * pivotRow[j] for j in [i, n). */
  method SubtractRow(row: seq<real>, pivotRow: seq<real>, factor: real, i: int, n: int) returns (row': seq<real>)
    requires 0 <= i <= n && |row| >= n && |pivotRow| >= n
    ensures |row'| == |row|
    ensures forall j :: i <= j < n ==> row'[j] == row[j] - factor * pivotRow[j]
    ensures forall j :: 0 <= j < |row| && !(i <= j < n) ==> row'[j] == row[j]
  {
    row' := row;
    var j := i;
    while j < n
      invariant i <= j <= n && |row'| == |row|
      invariant forall l :: i <= l < j ==> row'[l] == row[l] - factor * pivotRow[l]
      invariant forall l :: 0 <= l < |row| && !(i <= l < j) ==> row'[l] == row[l]
    {
      row' := row'[j := row'[j] - factor * pivotRow[j]];
      j := j + 1;
    }
  }

  lemma QuotientCancels(a: real, p: real)
    requires p != 0.0
    ensures a - (a / p) * p == 0.0
    ensures p * (a / p) == a
  {
  }

  /** The multiple of the pivot row that clears column i of a row. */
  function Factor(row: seq<real>, pivot: seq<real>, i: int): real
    requires 0 <= i < |row| && i < |pivot| && pivot[i] != 0.0
  {
    row[i] / pivot[i]
  }

  /** A row after `row[j] -= f * pivot[j]` for j from i to n - 1. */
  function ReducedRow(row: seq<real>, pivot: seq<real>, f: real, i: int, n: int): (r: seq<real>)
    requires 0 <= i < n <= |row| && n <= |pivot|
    ensures |r| == |row|
  {
    seq(|row|, j requires 0 <= j < |row| => if i <= j < n then row[j] - f * pivot[j] else row[j])
  }

  /** An entry of the right-hand side after `b[k] -= f * b[i]`. */
  function Reduced(x: real, f: real, p: real): real
  {
    x - f * p
  }

  /** The middle loop of step i from row k on: each row r in [k, n), one
      after another, loses factor times row i, and b[r] loses factor times
      b[i], where factor is A[r][i] / A[i][i]. */
  function EliminateFrom(A: Matrix, b: seq<real>, i: int, k: int, n: int): (E: (Matrix, seq<real>))
    requires SquareSystem(A, b, n) && 0 <= i < k <= n && A[i][i] != 0.0
    ensures SquareSystem(E.0, E.1, n) && |E.1| == |b|
    decreases n - k
  {
    if k == n then (A, b)
    else
      var f := Factor(A[k], A[i], i);
      EliminateFrom(A[k := ReducedRow(A[k], A[i], f, i, n)], b[k := Reduced(b[k], f, b[i])], i, k + 1, n)
  }

  /** One row of EliminateFrom, with the factor computed by the caller. */
  lemma EliminateFromStep(A: Matrix, b: seq<real>, i: int, k: int, n: int, f: real)
    requires SquareSystem(A, b, n) && 0 <= i < k < n && A[i][i] != 0.0 && f == Factor(A[k], A[i], i)
    ensures EliminateFrom(A, b, i, k, n) ==
            EliminateFrom(A[k := ReducedRow(A[k], A[i], f, i, n)], b[k := Reduced(b[k], f, b[i])], i, k + 1, n)
  {
  }

  /** What EliminateFrom leaves, row by row: the rows before k are
      unchanged, and every later row is reduced against row i of the input. */
  lemma {:induction false} EliminateFromRows(A: Matrix, b: seq<real>, i: int, k: int, n: int)
    requires SquareSystem(A, b, n) && 0 <= i < k <= n && A[i][i] != 0.0
    ensures var E := EliminateFrom(A, b, i, k, n);
            (forall r :: 0 <= r < k ==> E.0[r] == A[r] && E.1[r] == b[r]) &&
            forall r :: k <= r < n ==>
              E.0[r] == ReducedRow(A[r], A[i], Factor(A[r], A[i], i), i, n) &&
              E.1[r] == Reduced(b[r], Factor(A[r], A[i], i), b[i])
    decreases n - k
  {
    if k < n {
      var f := Factor(A[k], A[i], i);
      var A', b' := A[k := ReducedRow(A[k], A[i], f, i, n)], b[k := Reduced(b[k], f, b[i])];
      EliminateFromRows(A', b', i, k + 1, n);
      forall r | k < r < n
        ensures A'[r] == A[r] && A'[i] == A[i] && b'[r] == b[r] && b'[i] == b[i]
      {
      }
    }
  }

  /** Clearing column i below row i keeps exactly the same solutions, when
      row i is zero before column i. */
  lemma {:induction false} EliminateFromKeepsSolutions(A: Matrix, b: seq<real>, i: int, k: int, n: int)
    requires SquareSystem(A, b, n) && 0 <= i < k <= n && A[i][i] != 0.0
    requires forall c :: 0 <= c < i ==> A[i][c] == 0.0
    ensures SameSolutions(EliminateFrom(A, b, i, k, n).0, EliminateFrom(A, b, i, k, n).1, A, b, n)
    decreases n - k
  {
    if k < n {
      var f := Factor(A[k], A[i], i);
      var row := ReducedRow(A[k], A[i], f, i, n);
      assert forall j :: 0 <= j < n ==> row[j] == A[k][j] - f * A[i][j];
      RowOpKeepsSolutions(A, b, k, i, f, row, n);
      var A', b' := A[k := row], b[k := Reduced(b[k], f, b[i])];
      assert A'[i] == A[i];
      EliminateFromKeepsSolutions(A', b', i, k + 1, n);
      var E := EliminateFrom(A, b, i, k, n);
      assert E == EliminateFrom(A', b', i, k + 1, n);
      forall x
        ensures Solves(E.0, E.1, x, n) <==> Solves(A, b, x, n)
      {
        assert Solves(E.0, E.1, x, n) <==> Solves(A', b', x, n);
        assert Solves(A', b', x, n) <==> Solves(A, b, x, n);
      }
    }
  }

  /** What the outer loop keeps before step i: the columns before i are
      zero below the diagonal, and the pivots so far are at least 1e-12 in
      magnitude. */
  predicate Staged(A: Matrix, i: int, n: int)
    requires |A| == n && RowsAtLeast(A, n) && 0 <= i <= n
  {
    (forall r, c :: 0 <= c < r < n && c < i ==> A[r][c] == 0.0) &&
    forall r :: 0 <= r < i ==> Abs(A[r][r]) >= PivotTolerance
  }

  /** One step that does not throw: pivot row p swapped up, column i
      cleared below it. It keeps the solutions and advances the stage. */
  lemma StepKeepsStaged(A: Matrix, b: seq<real>, i: int, p: int, n: int)
    requires SquareSystem(A, b, n) && 0 <= i <= p < n && Staged(A, i, n)
    requires Abs(Swap(A, i, p)[i][i]) >= PivotTolerance
    ensures var E := EliminateFrom(Swap(A, i, p), Swap(b, i, p), i, i + 1, n);
            Staged(E.0, i + 1, n) && SameSolutions(E.0, E.1, A, b, n)
  {
    var As, bs := Swap(A, i, p), Swap(b, i, p);
    SwapKeepsSolutions(A, b, i, p, n);
    SwapKeepsStaged(A, i, p, n);
    EliminateFromKeepsSolutions(As, bs, i, i + 1, n);
    EliminateFromStaged(As, bs, i, n);
    var E := EliminateFrom(As, bs, i, i + 1, n);
    forall x
      ensures Solves(E.0, E.1, x, n) <==> Solves(A, b, x, n)
    {
      assert Solves(E.0, E.1, x, n) <==> Solves(As, bs, x, n);
    }
  }

  /** Swapping row i with a later row keeps the stage. */
  lemma SwapKeepsStaged(A: Matrix, i: int, p: int, n: int)
    requires |A| == n && RowsAtLeast(A, n) && 0 <= i <= p < n && Staged(A, i, n)
    ensures Staged(Swap(A, i, p), i, n) && forall c :: 0 <= c < i ==> Swap(A, i, p)[i][c] == 0.0
  {
    var As := Swap(A, i, p);
    forall r, c | 0 <= c < r < n && c < i
      ensures As[r][c] == 0.0
    {
      assert As[r] == if r == i then A[p] else if r == p then A[i] else A[r];
    }
  }

  /** Clearing column i below a large enough pivot extends the stage by one
      column. */
  lemma EliminateFromStaged(A: Matrix, b: seq<real>, i: int, n: int)
    requires SquareSystem(A, b, n) && 0 <= i < n && Staged(A, i, n) && Abs(A[i][i]) >= PivotTolerance
    ensures Staged(EliminateFrom(A, b, i, i + 1, n).0, i + 1, n)
  {
    EliminateFromRows(A, b, i, i + 1, n);
    var E := EliminateFrom(A, b, i, i + 1, n);
    forall r, c | 0 <= c < r < n && c < i + 1
      ensures E.0[r][c] == 0.0
    {
      if r > i {
        assert E.0[r] == ReducedRow(A[r], A[i], Factor(A[r], A[i], i), i, n);
        if c == i {
          QuotientCancels(A[r][i], A[i][i]);
        } else {
          assert A[r][c] == 0.0;
        }
      }
    }
  }

  /** Forward elimination from column i on, as the outer loop performs it:
      choose the pivot row, swap it up together with its right-hand side,
      throw when the pivot is below 1e-12 in magnitude, and otherwise clear
      the column below the pivot. */
  function Forward(A: Matrix, b: seq<real>, i: int, n: int): (r: Result<(Matrix, seq<real>)>)
    requires SquareSystem(A, b, n) && 0 <= i <= n
    ensures r.Ok? ==> SquareSystem(r.value.0, r.value.1, n)
    decreases n - i
  {
    if i == n then Ok((A, b))
    else
      var p := PivotRow(A, i, n);
      var As, bs := Swap(A, i, p), Swap(b, i, p);
      if Abs(As[i][i]) < PivotTolerance then Err("Matrix is singular or nearly singular.")
      else
        var E := EliminateFrom(As, bs, i, i + 1, n);
        Forward(E.0, E.1, i + 1, n)
  }

  /** Upper triangular in the first n columns with a non-zero diagonal. */
  predicate UpperTriangular(A: Matrix, n: int)
    requires |A| == n && RowsAtLeast(A, n)
  {
    (forall r, c :: 0 <= c < r < n ==> A[r][c] == 0.0) &&
    forall r :: 0 <= r < n ==> A[r][r] != 0.0
  }

  /** A forward elimination that does not throw ends in an upper-triangular
      system with exactly the solutions of the one it started from. */
  lemma {:induction false} ForwardMeaning(A: Matrix, b: seq<real>, i: int, n: int)
    requires SquareSystem(A, b, n) && 0 <= i <= n && Staged(A, i, n)
    ensures Forward(A, b, i, n).Ok? ==>
              UpperTriangular(Forward(A, b, i, n).value.0, n) &&
              SameSolutions(Forward(A, b, i, n).value.0, Forward(A, b, i, n).value.1, A, b, n)
    decreases n - i
  {
    if i < n {
      var p := PivotRow(A, i, n);
      if Abs(Swap(A, i, p)[i][i]) >= PivotTolerance {
        var E := EliminateFrom(Swap(A, i, p), Swap(b, i, p), i, i + 1, n);
        StepKeepsStaged(A, b, i, p, n);
        ForwardMeaning(E.0, E.1, i + 1, n);
        assert Forward(A, b, i, n) == Forward(E.0, E.1, i + 1, n);
        if Forward(A, b, i, n).Ok? {
          var U := Forward(A, b, i, n).value;
          forall x
            ensures Solves(U.0, U.1, x, n) <==> Solves(A, b, x, n)
          {
            assert Solves(U.0, U.1, x, n) <==> Solves(E.0, E.1, x, n);
          }
        }
      }
    }
  }

  /** Back substitution from row i up to row 0:
      x[i] := (b[i] - sum_{j > i} A[i][j] * x[j]) / A[i][i]. */
  function BackFrom(A: Matrix, b: seq<real>, n: int, i: int, x: seq<real>): (x': seq<real>)
    requires SquareSystem(A, b, n) && UpperTriangular(A, n) && -1 <= i < n && |x| == n
    ensures |x'| == n
    decreases i + 1
  {
    if i < 0 then x
    else BackFrom(A, b, n, i - 1, x[i := (b[i] - SumRange(A[i], x, i + 1, n)) / A[i][i]])
  }

  /** The back-substitution loop started from x = 0. */
  function BackSolution(A: Matrix, b: seq<real>, n: int): (x: seq<real>)
    requires SquareSystem(A, b, n) && UpperTriangular(A, n)
    ensures |x| == n
  {
    BackFrom(A, b, n, n - 1, seq(n, _ => 0.0))
  }

  /** Once rows i+1 to n-1 hold, back substitution solves the system. */
  lemma {:induction false} BackFromSolves(A: Matrix, b: seq<real>, n: int, i: int, x: seq<real>)
    requires SquareSystem(A, b, n) && UpperTriangular(A, n) && -1 <= i < n && |x| == n
    requires forall r :: i < r < n ==> SumRange(A[r], x, r, n) == b[r]
    ensures Solves(A, b, BackFrom(A, b, n, i, x), n)
    decreases i + 1
  {
    if i < 0 {
      forall r | 0 <= r < n
        ensures SumRange(A[r], x, 0, n) == b[r]
      {
        SumRangeSplit(A[r], x, 0, r, n);
        SumRangeZero(A[r], x, 0, r);
      }
    } else {
      var sum := SumRange(A[i], x, i + 1, n);
      var x' := x[i := (b[i] - sum) / A[i][i]];
      forall r | i < r < n
        ensures SumRange(A[r], x', r, n) == b[r]
      {
        SumRangeAgree(A[r], x', A[r], x, r, n);
      }
      SumRangeSplit(A[i], x', i, i + 1, n);
      SumRangeAgree(A[i], x', A[i], x, i + 1, n);
      QuotientCancels(b[i] - sum, A[i][i]);
      BackFromSolves(A, b, n, i - 1, x');
    }
  }

  lemma DivideOut(p: real, y: real, q: real)
    requires p != 0.0 && p * y == q
    ensures y == q / p
  {
  }

  /** A solution of the triangular system agreeing with x after row i is
      what back substitution produces: there is no other solution. */
  lemma {:induction false} BackFromUnique(A: Matrix, b: seq<real>, n: int, i: int, x: seq<real>, y: seq<real>)
    requires SquareSystem(A, b, n) && UpperTriangular(A, n) && -1 <= i < n && |x| == n
    requires Solves(A, b, y, n) && forall j :: i < j < n ==> x[j] == y[j]
    ensures BackFrom(A, b, n, i, x) == y
    decreases i + 1
  {
    if i < 0 {
      assert x == y;
    } else {
      var sum := SumRange(A[i], x, i + 1, n);
      SumRangeAgree(A[i], x, A[i], y, i + 1, n);
      SumRangeSplit(A[i], y, 0, i, n);
      SumRangeSplit(A[i], y, i, i + 1, n);
      SumRangeZero(A[i], y, 0, i);
      assert SumRange(A[i], y, i, i + 1) == A[i][i] * y[i];
      DivideOut(A[i][i], y[i], b[i] - sum);
      BackFromUnique(A, b, n, i - 1, x[i := (b[i] - sum) / A[i][i]], y);
    }
  }

  /** solveLinearSystem as a function: the empty system gives the empty
      vector, forward elimination may throw, and otherwise back
      substitution gives the answer. */
  function Solve(A: Matrix, b: seq<real>): (r: Result<seq<real>>)
    requires SquareSystem(A, b, |A|)
    ensures r.Ok? ==> |r.value| == |A|
  {
    var n := |A|;
    if n == 0 then Ok([])
    else
      match Forward(A, b, 0, n)
      case Err(e) => Err(e)
      case Ok(U) => ForwardMeaning(A, b, 0, n); Ok(BackSolution(U.0, U.1, n))
  }

  /** Over exact reals, an answer of solveLinearSystem solves the system,
      and it is the system's only solution. */
  lemma SolveExact(A: Matrix, b: seq<real>)
    requires SquareSystem(A, b, |A|)
    ensures Solve(A, b).Ok? ==> Solves(A, b, Solve(A, b).value, |A|)
    ensures Solve(A, b).Ok? ==> forall y :: Solves(A, b, y, |A|) ==> y == Solve(A, b).value
  {
    var n := |A|;
    if n > 0 && Forward(A, b, 0, n).Ok? {
      var U := Forward(A, b, 0, n).value;
      ForwardMeaning(A, b, 0, n);
      var zero := seq(n, _ => 0.0);
      BackFromSolves(U.0, U.1, n, n - 1, zero);
      assert Solves(U.0, U.1, Solve(A, b).value, n);
      forall y | Solves(A, b, y, n)
        ensures y == Solve(A, b).value
      {
        assert Solves(U.0, U.1, y, n);
        BackFromUnique(U.0, U.1, n, n - 1, zero, y);
      }
    } else if n == 0 {
      forall y | Solves(A, b, y, n)
        ensures y == Solve(A, b).value
      {
        assert y == [];
      }
    }
  }

  /** One pass of the middle loop: factor = A[k][i] / A[i][i], then row k
      loses factor times row i and b[k] loses factor times b[i]. */
  method ReduceRow(A: Matrix, b: seq<real>, i: int, k: int, n: int) returns (A': Matrix, b': seq<real>)
    requires SquareSystem(A, b, n) && 0 <= i < k < n && A[i][i] != 0.0
    ensures SquareSystem(A', b', n) && A'[i] == A[i]
    ensures EliminateFrom(A', b', i, k + 1, n) == EliminateFrom(A, b, i, k, n)
  {
    var factor := A[k][i] / A[i][i];
    var row := SubtractRow(A[k], A[i], factor, i, n);
    var reduced := ReducedRow(A[k], A[i], factor, i, n);
    assert |row| == |reduced|;
    forall j | 0 <= j < |row|
      ensures row[j] == reduced[j]
    {
    }
    assert row == reduced;
    EliminateFromStep(A, b, i, k, n, factor);
    A', b' := A[k := row], b[k := Reduced(b[k], factor, b[i])];
  }

  /** The middle loop of step i: clear column i below the pivot row i. */
  method EliminateBelow(A: Matrix, b: seq<real>, i: int, n: int) returns (A': Matrix, b': seq<real>)
    requires SquareSystem(A, b, n) && 0 <= i < n && A[i][i] != 0.0
    requires forall c :: 0 <= c < i ==> A[i][c] == 0.0
    ensures (A', b') == EliminateFrom(A, b, i, i + 1, n)
    ensures forall r :: 0 <= r <= i ==> A'[r] == A[r] && b'[r] == b[r]
    ensures forall r :: i < r < n ==>
              A'[r] == ReducedRow(A[r], A[i], Factor(A[r], A[i], i), i, n) &&
              b'[r] == Reduced(b[r], Factor(A[r], A[i], i), b[i])
    ensures SquareSystem(A', b', n) && SameSolutions(A', b', A, b, n)
  {
    A', b' := A, b;
    var k := i + 1;
    while k < n
      invariant i + 1 <= k <= n && SquareSystem(A', b', n) && A'[i] == A[i]
      invariant EliminateFrom(A', b', i, k, n) == EliminateFrom(A, b, i, i + 1, n)
    {
      A', b' := ReduceRow(A', b', i, k, n);
      k := k + 1;
    }
    EliminateFromRows(A, b, i, i + 1, n);
    EliminateFromKeepsSolutions(A, b, i, i + 1, n);
  }

  /** The back-substitution loop. */
  method BackSubstitute(A: Matrix, b: seq<real>, n: int) returns (x: seq<real>)
    requires SquareSystem(A, b, n) && UpperTriangular(A, n)
    ensures x == BackSolution(A, b, n)
    ensures Solves(A, b, x, n)
  {
    x := seq(n, _ => 0.0);
    var i := n - 1;
    while i >= 0
      invariant -1 <= i < n && |x| == n
      invariant BackFrom(A, b, n, i, x) == BackSolution(A, b, n)
    {
      var sum := 0.0;
      var j := i + 1;
      while j < n
        invariant i + 1 <= j <= n
        invariant sum == SumRange(A[i], x, i + 1, j)
      {
        sum := sum + A[i][j] * x[j];
        j := j + 1;
      }
      x := x[i := (b[i] - sum) / A[i][i]];
      i := i - 1;
    }
    BackFromSolves(A, b, n, n - 1, seq(n, _ => 0.0));
  }

  /** One step of the forward elimination: choose the pivot row of column
      i, swap it up, and, unless the pivot is below 1e-12, eliminate the
      column below it. */
  method EliminationStep(A: Matrix, b: seq<real>, i: int, n: int)
    returns (maxRow: int, singular: bool, A': Matrix, b': seq<real>)
    requires SquareSystem(A, b, n) && 0 <= i < n && Staged(A, i, n)
    ensures maxRow == PivotRow(A, i, n)
    ensures singular <==> Abs(A[maxRow][i]) < PivotTolerance
    ensures !singular ==> (A', b') == EliminateFrom(Swap(A, i, maxRow), Swap(b, i, maxRow), i, i + 1, n)
    ensures !singular ==> SquareSystem(A', b', n) && Staged(A', i + 1, n) && SameSolutions(A', b', A, b, n)
  {
    maxRow := SelectPivot(A, i, n);
    var swapped, swappedB := Swap(A, i, maxRow), Swap(b, i, maxRow);
    singular := Abs(swapped[i][i]) < PivotTolerance;
    if singular {
      return maxRow, singular, A, b;
    }
    StepKeepsStaged(A, b, i, maxRow, n);
    A', b' := EliminateBelow(swapped, swappedB, i, n);
  }

  /** The outer loop of solveLinearSystem: one elimination step per
      column, throwing at the first pivot below 1e-12. */
  method ForwardEliminate(A0: Matrix, b0: seq<real>, n: int) returns (r: Result<(Matrix, seq<real>)>)
    requires SquareSystem(A0, b0, n)
    ensures r == Forward(A0, b0, 0, n)
  {
    var A, b := A0, b0;
    var i := 0;
    while i < n
      invariant 0 <= i <= n && SquareSystem(A, b, n) && Staged(A, i, n)
      invariant Forward(A, b, i, n) == Forward(A0, b0, 0, n)
    {
      var maxRow, singular, A', b' := EliminationStep(A, b, i, n);
      if singular {
        return Err("Matrix is singular or nearly singular.");
      }
      A, b := A', b';
      i := i + 1;
    }
    return Ok((A, b));
  }

  /** solveLinearSystem: forward elimination with partial pivoting, then
      back substitution; a pivot of magnitude below 1e-12 throws. Over
      exact reals, a returned x is the only solution of the system. */
  method SolveLinearSystem(A0: Matrix, b0: seq<real>) returns (r: Result<seq<real>>)
    requires SquareSystem(A0, b0, |A0|)
    ensures r == Solve(A0, b0)
    ensures r.Ok? ==> Solves(A0, b0, r.value, |A0|)
  {
    SolveExact(A0, b0);
    var n := |A0|;
    if n == 0 {
      return Ok([]);
    }
    var forward := ForwardEliminate(A0, b0, n);
    if forward.Err? {
      return Err(forward.reason);
    }
    ForwardMeaning(A0, b0, 0, n);
    var x := BackSubstitute(forward.value.0, forward.value.1, n);
    return Ok(x);
  }

  // ---------------------------------------------------------------------
  // Normal equations shared by the Chan and Taylor steps

  /** The coefficient matrix G^T G of the normal equations. */
  ghost function NormalMatrix(G: Matrix): (N: Matrix)
    requires Rectangular(G) && |G[0]| > 0
    ensures |N| == |G[0]| && RowsAtLeast(N, |G[0]|)
  {
    var T := Transposed(G);
    seq(|G[0]|, c requires 0 <= c < |G[0]| =>
      seq(|G[0]|, k requires 0 <= k < |G[0]| => SumRange(T[c], Column(G, k), 0, |G|)))
  }

  /** The right-hand side G^T h. */
  ghost function NormalRhs(G: Matrix, h: seq<real>): (g: seq<real>)
    requires Rectangular(G) && |G[0]| > 0 && |h| == |G|
    ensures |g| == |G[0]|
  {
    var T := Transposed(G);
    seq(|G[0]|, c requires 0 <= c < |G[0]| => SumRange(T[c], h, 0, |G|))
  }

  /** transposeMatrix, multiplyMatrixMatrix and multiplyMatrixVector as the
      Chan and Taylor steps chain them; the sizes always match, so neither
      product throws. */
  method NormalEquations(G: Matrix, h: seq<real>) returns (GtG: Matrix, Gth: seq<real>)
    requires Rectangular(G) && |G[0]| > 0 && |h| == |G|
    ensures GtG == NormalMatrix(G) && Gth == NormalRhs(G, h)
    ensures SquareSystem(GtG, Gth, |G[0]|)
  {
    var T := TransposeMatrix(G);
    var product := MultiplyMatrixMatrix(T, G);
    var rhs := MultiplyMatrixVector(T, h);
    GtG, Gth := product.value, rhs.value;
    var N := NormalMatrix(G);
    forall c | 0 <= c < |G[0]|
      ensures GtG[c] == N[c]
    {
      assert |GtG[c]| == |N[c]|;
    }
  }

  // ---------------------------------------------------------------------
  // Chan's initial estimate and the Taylor refinement

  const Origin: Coord3 := Coord3(0.0, 0.0, 0.0)

  /** Row i of Chan's system: the position of station i+1 relative to
      station 0 and the range difference c * tdoa[i+1]. */
  function ChanRow(stations: seq<Coord3>, tdoas: seq<real>, i: int): seq<real>
    requires 0 <= i && i + 1 < |stations| && i + 1 < |tdoas|
  {
    var s, s0 := stations[i + 1], stations[0];
    [s.p1 - s0.p1, s.p2 - s0.p2, s.p3 - s0.p3, C * tdoas[i + 1]]
  }

  /** h[i] = (K_i - d_i1^2) / 2, K_i the squared distance between the two
      stations. */
  function ChanRhs(stations: seq<Coord3>, tdoas: seq<real>, i: int): real
    requires 0 <= i && i + 1 < |stations| && i + 1 < |tdoas|
  {
    var r := ChanRow(stations, tdoas, i);
    0.5 * (r[0] * r[0] + r[1] * r[1] + r[2] * r[2] - r[3] * r[3])
  }

  /** Chan's coefficient matrix Ga, one row per station after station 0. */
  function ChanMatrix(stations: seq<Coord3>, tdoas: seq<real>): (G: Matrix)
    requires |stations| >= 2 && |tdoas| >= |stations|
    ensures |G| == |stations| - 1 && Rectangular(G) && |G[0]| == 4
  {
    seq(|stations| - 1, i requires 0 <= i < |stations| - 1 => ChanRow(stations, tdoas, i))
  }

  /** Chan's right-hand side h. */
  function ChanVector(stations: seq<Coord3>, tdoas: seq<real>): (h: seq<real>)
    requires |stations| >= 2 && |tdoas| >= |stations|
    ensures |h| == |stations| - 1
  {
    seq(|stations| - 1, i requires 0 <= i < |stations| - 1 => ChanRhs(stations, tdoas, i))
  }

  /** tdoaLocate_chan_initial as a function: fewer than four stations, or a
      solve that throws, give (0, 0, 0); otherwise the first three unknowns
      of the normal equations' solution, shifted back by station 0. */
  ghost function ChanEstimate(stations: seq<Coord3>, tdoas: seq<real>): Coord3
    requires |stations| >= 4 ==> |tdoas| >= |stations|
  {
    if |stations| < 4 then Origin
    else
      var G := ChanMatrix(stations, tdoas);
      match Solve(NormalMatrix(G), NormalRhs(G, ChanVector(stations, tdoas)))
      case Err(_) => Origin
      case Ok(x) => Coord3(x[0] + stations[0].p1, x[1] + stations[0].p2, x[2] + stations[0].p3)
  }

  /** With four or more stations, Chan's estimate relative to station 0 is
      the only solution of the normal equations G^T G x = G^T h, and it is
      the origin exactly in the case the solve throws. */
  lemma ChanEstimateMeaning(stations: seq<Coord3>, tdoas: seq<real>)
    requires |stations| >= 4 && |tdoas| >= |stations|
    ensures var G := ChanMatrix(stations, tdoas);
            var N, h := NormalMatrix(G), NormalRhs(G, ChanVector(stations, tdoas));
            (Solve(N, h).Err? ==> ChanEstimate(stations, tdoas) == Origin) &&
            (Solve(N, h).Ok? ==>
               Solves(N, h, Solve(N, h).value, 4) &&
               (forall y :: Solves(N, h, y, 4) ==> y == Solve(N, h).value) &&
               ChanEstimate(stations, tdoas) ==
                 Coord3(Solve(N, h).value[0] + stations[0].p1, Solve(N, h).value[1] + stations[0].p2,
                        Solve(N, h).value[2] + stations[0].p3))
  {
    var G := ChanMatrix(stations, tdoas);
    SolveExact(NormalMatrix(G), NormalRhs(G, ChanVector(stations, tdoas)));
  }

  /** tdoaLocate_chan_initial. */
  method ChanInitial(stations: seq<Coord3>, tdoas: seq<real>) returns (r: Coord3)
    requires |stations| >= 4 ==> |tdoas| >= |stations|
    ensures r == ChanEstimate(stations, tdoas)
  {
    var n := |stations|;
    if n < 4 {
      return Origin;
    }
    var m := n - 1;
    var Ga: Matrix := [];
    var h: seq<real> := [];
    var i := 0;
    while i < m
      invariant 0 <= i <= m && |Ga| == i && |h| == i
      invariant forall k :: 0 <= k < i ==> Ga[k] == ChanRow(stations, tdoas, k) && h[k] == ChanRhs(stations, tdoas, k)
    {
      Ga := Ga + [ChanRow(stations, tdoas, i)];
      h := h + [ChanRhs(stations, tdoas, i)];
      i := i + 1;
    }
    assert Ga == ChanMatrix(stations, tdoas);
    assert h == ChanVector(stations, tdoas);
    var GtG, Gth := NormalEquations(Ga, h);
    var sol := SolveLinearSystem(GtG, Gth);
    if sol.Err? {
      return Origin;
    }
    var x := sol.value;
    return Coord3(x[0] + stations[0].p1, x[1] + stations[0].p2, x[2] + stations[0].p3);
  }

  const MaxIterations: nat := 10
  const ConvergenceTolerance: real := 0.0001

  /** Row i of the Taylor Jacobian H at pos, ranges floored at 1 m. */
  function TaylorRow(m: Math, stations: seq<Coord3>, pos: Coord3, i: int): (row: seq<real>)
    requires 0 <= i && i + 1 < |stations|
    ensures |row| == 3
  {
    var s, s0 := stations[i + 1], stations[0];
    var ri, r1 := Max(Distance(m, s, pos), 1.0), Max(Distance(m, s0, pos), 1.0);
    [(pos.p1 - s.p1) / ri - (pos.p1 - s0.p1) / r1,
     (pos.p2 - s.p2) / ri - (pos.p2 - s0.p2) / r1,
     (pos.p3 - s.p3) / ri - (pos.p3 - s0.p3) / r1]
  }

  /** delta_rho[i]: the measured TDOA minus the one predicted at pos. */
  function TaylorResidual(m: Math, stations: seq<Coord3>, tdoas: seq<real>, pos: Coord3, i: int): real
    requires 0 <= i && i + 1 < |stations| && i + 1 < |tdoas|
  {
    var ri, r1 := Max(Distance(m, stations[i + 1], pos), 1.0), Max(Distance(m, stations[0], pos), 1.0);
    tdoas[i + 1] - (ri - r1) / C
  }

  function TaylorMatrix(m: Math, stations: seq<Coord3>, pos: Coord3): (H: Matrix)
    requires |stations| >= 2
    ensures |H| == |stations| - 1 && Rectangular(H) && |H[0]| == 3
  {
    seq(|stations| - 1, i requires 0 <= i < |stations| - 1 => TaylorRow(m, stations, pos, i))
  }

  function TaylorVector(m: Math, stations: seq<Coord3>, tdoas: seq<real>, pos: Coord3): (d: seq<real>)
    requires |stations| >= 2 && |tdoas| >= |stations|
    ensures |d| == |stations| - 1
  {
    seq(|stations| - 1, i requires 0 <= i < |stations| - 1 => TaylorResidual(m, stations, tdoas, pos, i))
  }

  /** Every entry multiplied by k (the residuals converted to metres). */
  function ScaledBy(v: seq<real>, k: real): (w: seq<real>)
    ensures |w| == |v| && forall i :: 0 <= i < |v| ==> w[i] == v[i] * k
  {
    seq(|v|, i requires 0 <= i < |v| => v[i] * k)
  }

  /** The correction of one Taylor iteration at pos: the solve of
      (H^T H) dx = c * H^T delta_rho. */
  ghost function TaylorCorrection(m: Math, stations: seq<Coord3>, tdoas: seq<real>, pos: Coord3): (r: Result<seq<real>>)
    requires |stations| >= 4 && |tdoas| >= |stations|
    ensures r.Ok? ==> |r.value| == 3
  {
    var H := TaylorMatrix(m, stations, pos);
    Solve(NormalMatrix(H), ScaledBy(NormalRhs(H, TaylorVector(m, stations, tdoas, pos)), C))
  }

  /** An answered correction is the only solution of its normal equations. */
  lemma TaylorCorrectionMeaning(m: Math, stations: seq<Coord3>, tdoas: seq<real>, pos: Coord3)
    requires |stations| >= 4 && |tdoas| >= |stations|
    ensures var H := TaylorMatrix(m, stations, pos);
            var N, g := NormalMatrix(H), ScaledBy(NormalRhs(H, TaylorVector(m, stations, tdoas, pos)), C);
            TaylorCorrection(m, stations, tdoas, pos).Ok? ==>
              Solves(N, g, TaylorCorrection(m, stations, tdoas, pos).value, 3) &&
              forall y :: Solves(N, g, y, 3) ==> y == TaylorCorrection(m, stations, tdoas, pos).value
  {
    var H := TaylorMatrix(m, stations, pos);
    SolveExact(NormalMatrix(H), ScaledBy(NormalRhs(H, TaylorVector(m, stations, tdoas, pos)), C));
  }

  /** An answered correction as a displacement; an unanswered one (the
      solve threw) as its message. */
  ghost function Displacement(m: Math, stations: seq<Coord3>, tdoas: seq<real>, pos: Coord3): Result<Coord3>
    requires |stations| >= 4 && |tdoas| >= |stations|
  {
    match TaylorCorrection(m, stations, tdoas, pos)
    case Err(e) => Err(e)
    case Ok(dx) => Ok(Coord3(dx[0], dx[1], dx[2]))
  }

  /** The correction rule of the Taylor loop for one set of stations. */
  ghost function TaylorStep(m: Math, stations: seq<Coord3>, tdoas: seq<real>): Coord3 -> Result<Coord3>
    requires |stations| >= 4 && |tdoas| >= |stations|
  {
    pos => Displacement(m, stations, tdoas, pos)
  }

  /** pos moved by the displacement d. */
  function Moved(pos: Coord3, d: Coord3): Coord3
  {
    Coord3(pos.p1 + d.p1, pos.p2 + d.p2, pos.p3 + d.p3)
  }

  /** The Euclidean norm of a displacement. */
  function StepNorm(m: Math, d: Coord3): real
  {
    m.sqrt(SumSquares(d.p1, d.p2, d.p3))
  }

  function Last(path: seq<Coord3>): Coord3
    requires |path| > 0
  {
    path[|path| - 1]
  }

  /** The positions the Taylor loop visits from iteration `iter` on, for a
      correction rule `step`: it stops at the iteration limit, when the rule
      gives no answer, or after a displacement shorter than 1e-4. */
  ghost function TaylorPath(m: Math, step: Coord3 -> Result<Coord3>, pos: Coord3, iter: nat): (path: seq<Coord3>)
    requires iter <= MaxIterations
    ensures 1 <= |path| <= MaxIterations - iter + 1 && path[0] == pos
    decreases MaxIterations - iter
  {
    if iter == MaxIterations then [pos]
    else
      match step(pos)
      case Err(_) => [pos]
      case Ok(d) =>
        if StepNorm(m, d) < ConvergenceTolerance then [pos, Moved(pos, d)]
        else [pos] + TaylorPath(m, step, Moved(pos, d), iter + 1)
  }

  /** Move k along the path is the rule's displacement, and every
      displacement before the last is at least 1e-4 long. */
  lemma {:induction false} TaylorPathStep(m: Math, step: Coord3 -> Result<Coord3>, pos: Coord3, iter: nat, k: nat)
    requires iter <= MaxIterations && k + 1 < |TaylorPath(m, step, pos, iter)|
    ensures var path := TaylorPath(m, step, pos, iter);
            step(path[k]).Ok? && path[k + 1] == Moved(path[k], step(path[k]).value) &&
            (k + 2 < |path| ==> StepNorm(m, step(path[k]).value) >= ConvergenceTolerance)
    decreases k
  {
    if k > 0 {
      TaylorPathStep(m, step, Moved(pos, step(pos).value), iter + 1, k - 1);
    }
  }

  /** The path stops short of the iteration limit only on convergence or
      on a rule that gives no answer. */
  lemma {:induction false} TaylorPathEnd(m: Math, step: Coord3 -> Result<Coord3>, pos: Coord3, iter: nat)
    requires iter <= MaxIterations
    ensures var path := TaylorPath(m, step, pos, iter);
            |path| < MaxIterations - iter + 1 ==>
              step(Last(path)).Err? ||
              (|path| >= 2 && step(path[|path| - 2]).Ok? &&
               StepNorm(m, step(path[|path| - 2]).value) < ConvergenceTolerance)
    decreases MaxIterations - iter
  {
    if iter < MaxIterations && step(pos).Ok? && StepNorm(m, step(pos).value) >= ConvergenceTolerance {
      var next := Moved(pos, step(pos).value);
      TaylorPathEnd(m, step, next, iter + 1);
      var rest := TaylorPath(m, step, next, iter + 1);
      assert TaylorPath(m, step, pos, iter) == [pos] + rest;
    }
  }

  /** A step that neither fails nor converges leaves the end of the path
      where the path from the moved position ends. */
  lemma TaylorPathContinues(m: Math, step: Coord3 -> Result<Coord3>, pos: Coord3, iter: nat)
    requires iter < MaxIterations && step(pos).Ok? && StepNorm(m, step(pos).value) >= ConvergenceTolerance
    ensures Last(TaylorPath(m, step, pos, iter)) == Last(TaylorPath(m, step, Moved(pos, step(pos).value), iter + 1))
  {
  }

  /** tdoaRefinePosition_taylor as a function: fewer than four stations
      return the guess; otherwise the end of the Taylor path from it. */
  ghost function TaylorRefinement(m: Math, stations: seq<Coord3>, tdoas: seq<real>, guess: Coord3): Coord3
    requires |stations| >= 4 ==> |tdoas| >= |stations|
  {
    if |stations| < 4 then guess else Last(TaylorPath(m, TaylorStep(m, stations, tdoas), guess, 0))
  }

  /** The loop that fills H and delta_rho at the current position. */
  method TaylorSystem(m: Math, stations: seq<Coord3>, tdoas: seq<real>, pos: Coord3)
    returns (H: Matrix, deltaRho: seq<real>)
    requires |stations| >= 4 && |tdoas| >= |stations|
    ensures H == TaylorMatrix(m, stations, pos) && deltaRho == TaylorVector(m, stations, tdoas, pos)
  {
    var r1 := Max(Distance(m, stations[0], pos), 1.0);
    H, deltaRho := [], [];
    var i := 0;
    while i < |stations| - 1
      invariant 0 <= i <= |stations| - 1 && |H| == i && |deltaRho| == i
      invariant forall k :: 0 <= k < i ==> H[k] == TaylorRow(m, stations, pos, k)
      invariant forall k :: 0 <= k < i ==> deltaRho[k] == TaylorResidual(m, stations, tdoas, pos, k)
    {
      var station := stations[i + 1];
      var ri := Max(Distance(m, station, pos), 1.0);
      H := H + [[(pos.p1 - station.p1) / ri - (pos.p1 - stations[0].p1) / r1,
                 (pos.p2 - station.p2) / ri - (pos.p2 - stations[0].p2) / r1,
                 (pos.p3 - station.p3) / ri - (pos.p3 - stations[0].p3) / r1]];
      deltaRho := deltaRho + [tdoas[i + 1] - (ri - r1) / C];
      i := i + 1;
    }
  }

  /** The loop `val *= c` over H^T delta_rho. */
  method ScaleByC(v: seq<real>) returns (w: seq<real>)
    ensures w == ScaledBy(v, C)
  {
    w := v;
    var k := 0;
    while k < |w|
      invariant 0 <= k <= |w| == |v|
      invariant forall j :: 0 <= j < k ==> w[j] == v[j] * C
      invariant forall j :: k <= j < |w| ==> w[j] == v[j]
    {
      w := w[k := w[k] * C];
      k := k + 1;
    }
  }

  /** One correction of the Taylor loop: fill H and delta_rho, form the
      normal equations, scale the right-hand side by c and solve. */
  method Correction(m: Math, stations: seq<Coord3>, tdoas: seq<real>, pos: Coord3) returns (r: Result<seq<real>>)
    requires |stations| >= 4 && |tdoas| >= |stations|
    ensures r == TaylorCorrection(m, stations, tdoas, pos)
  {
    var H, deltaRho := TaylorSystem(m, stations, tdoas, pos);
    var HtH, HtDelta := NormalEquations(H, deltaRho);
    HtDelta := ScaleByC(HtDelta);
    r := SolveLinearSystem(HtH, HtDelta);
  }

  /** One pass of the Taylor loop from pos: either the loop stops here
      (the solve threw, or the step converged) and returns `next`, or it
      goes on from `next`; either way the path's end is unchanged. */
  method TaylorIteration(m: Math, stations: seq<Coord3>, tdoas: seq<real>, pos: Coord3, ghost iter: nat)
    returns (done: bool, next: Coord3)
    requires |stations| >= 4 && |tdoas| >= |stations| && iter < MaxIterations
    ensures done ==> next == Last(TaylorPath(m, TaylorStep(m, stations, tdoas), pos, iter))
    ensures !done ==> Last(TaylorPath(m, TaylorStep(m, stations, tdoas), next, iter + 1)) ==
                      Last(TaylorPath(m, TaylorStep(m, stations, tdoas), pos, iter))
  {
    ghost var step := TaylorStep(m, stations, tdoas);
    var correction := Correction(m, stations, tdoas, pos);
    assert step(pos) == Displacement(m, stations, tdoas, pos);
    if correction.Err? {
      return true, pos;
    }
    var dx := Coord3(correction.value[0], correction.value[1], correction.value[2]);
    next := Moved(pos, dx);
    var correctionNorm := StepNorm(m, dx);
    if correctionNorm < ConvergenceTolerance {
      assert TaylorPath(m, step, pos, iter) == [pos, next];
      return true, next;
    }
    TaylorPathContinues(m, step, pos, iter);
    return false, next;
  }

  /** tdoaRefinePosition_taylor: fewer than four stations return the
      initial guess unchanged; otherwise at most ten Gauss-Newton steps,
      stopping early on convergence (step norm below 1e-4) or when the
      linearised system is singular. */
  method TaylorRefine(m: Math, stations: seq<Coord3>, tdoas: seq<real>, initialGuess: Coord3) returns (r: Coord3)
    requires |stations| >= 4 ==> |tdoas| >= |stations|
    ensures r == TaylorRefinement(m, stations, tdoas, initialGuess)
  {
    if |stations| < 4 {
      return initialGuess;
    }
    var currentPos := initialGuess;
    var iter: nat := 0;
    while iter < MaxIterations
      invariant iter <= MaxIterations
      invariant Last(TaylorPath(m, TaylorStep(m, stations, tdoas), currentPos, iter)) ==
                TaylorRefinement(m, stations, tdoas, initialGuess)
    {
      var done;
      done, currentPos := TaylorIteration(m, stations, tdoas, currentPos, iter);
      if done {
        return currentPos;
      }
      iter := iter + 1;
    }
    return currentPos;
  }
}
