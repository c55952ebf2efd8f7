/** Dense real matrices and the NumPy operations the SVM loss is built from,
    each written out as an explicit index function: vector-matrix and
    matrix-matrix products (`dot`), sums along an axis, elementwise squares,
    `np.tile`, a row-major `reshape`, the axis swap `transpose([1, 0, 2])`,
    and the fancy-index update `m[f, idx] += h`. Entries are exact reals. */
module Matrices {

  type Matrix = seq<seq<real>>
  type Tensor3 = seq<Matrix>

  /** `m` has shape (rows, cols). */
  predicate IsMatrix(m: Matrix, rows: nat, cols: nat) {
    |m| == rows && forall i :: 0 <= i < rows ==> |m[i]| == cols
  }

  /** `t` has shape (a, b, c). */
  predicate IsTensor3(t: Tensor3, a: nat, b: nat, c: nat) {
    |t| == a && forall i :: 0 <= i < a ==> IsMatrix(t[i], b, c)
  }

  /** The array holds matrix m: same shape, same entries. */
  predicate Holds(a: array2<real>, m: Matrix)
    reads a
  {
    IsMatrix(m, a.Length0, a.Length1) &&
    forall i, j :: 0 <= i < a.Length0 && 0 <= j < a.Length1 ==> a[i, j] == m[i][j]
  }

  /** An array holds exactly one matrix. */
  lemma HoldsUnique(a: array2<real>, m: Matrix, n: Matrix)
    requires Holds(a, m) && Holds(a, n)
    ensures m == n
  {
    forall i | 0 <= i < a.Length0
      ensures m[i] == n[i]
    {
      assert |m[i]| == |n[i]|;
    }
  }

  /** Reads the current contents of a two-dimensional array as a matrix value. */
  method Contents(a: array2<real>) returns (m: Matrix)
    ensures Holds(a, m)
  {
    m := seq(a.Length0, i requires 0 <= i < a.Length0 reads a =>
      seq(a.Length1, j requires 0 <= j < a.Length1 reads a => a[i, j]));
  }

  // ---------------------------------------------------------------------
  // Index arithmetic of row-major layouts

  lemma {:induction false} MulMono(a: nat, b: nat, n: nat)
    requires a <= b
    ensures a * n <= b * n
    decreases b - a
  {
    if a < b {
      MulMono(a, b - 1, n);
      assert (b - 1) * n + n == b * n;
    }
  }

  /** Position k * n + j of a row made of n-wide blocks is column j of block k. */
  lemma MulAddDivMod(k: nat, j: nat, n: nat)
    requires j < n
    ensures (k * n + j) / n == k && (k * n + j) % n == j
  {
    var x := k * n + j;
    var q, r := x / n, x % n;
    assert x == q * n + r;
    if q > k {
      assert (k + 1) * n == k * n + n;
      MulMono(k + 1, q, n);
    } else if q < k {
      assert (q + 1) * n == q * n + n;
      MulMono(q + 1, k, n);
    }
  }

  /** Row-major index of (k, j) in an a-by-b block lies inside it. */
  lemma MulAddLt(k: nat, j: nat, a: nat, b: nat)
    requires k < a && j < b
    ensures k * b + j < a * b
  {
    MulMono(k + 1, a, b);
    assert (k + 1) * b == k * b + b;
  }

  // ---------------------------------------------------------------------
  // Products

  /** x[0] * B[0][j] + ... + x[n-1] * B[n-1][j]: the first n terms of `x.dot(B)[j]`. */
  function DotTo(x: seq<real>, B: Matrix, j: nat, n: nat): real
    requires n <= |x| && n <= |B|
    requires forall d :: 0 <= d < n ==> j < |B[d]|
  {
    if n == 0 then 0.0 else DotTo(x, B, j, n - 1) + x[n - 1] * B[n - 1][j]
  }

  /** `x.dot(B)` for a row vector x and a (|x|, cols) matrix B. */
  function VecMat(x: seq<real>, B: Matrix, cols: nat): (r: seq<real>)
    requires IsMatrix(B, |x|, cols)
    ensures |r| == cols
  {
    seq(cols, j requires 0 <= j < cols => DotTo(x, B, j, |x|))
  }

  /** `A.dot(B)` for an (|A|, inner) matrix A and an (inner, cols) matrix B:
      row i of the product is `A[i].dot(B)`. */
  function MatMul(A: Matrix, B: Matrix, inner: nat, cols: nat): (p: Matrix)
    requires IsMatrix(A, |A|, inner) && IsMatrix(B, inner, cols)
    ensures IsMatrix(p, |A|, cols)
  {
    seq(|A|, i requires 0 <= i < |A| => VecMat(A[i], B, cols))
  }

  /** A dot product only sees the column it is taken against: two matrices
      whose columns a and b agree give the same products with any x. */
  lemma {:induction false} DotColumnsAgree(x: seq<real>, A: Matrix, a: nat, B: Matrix, b: nat, n: nat)
    requires n <= |x| && n <= |A| && n <= |B|
    requires forall d :: 0 <= d < n ==> a < |A[d]| && b < |B[d]|
    requires forall d :: 0 <= d < n ==> A[d][a] == B[d][b]
    ensures DotTo(x, A, a, n) == DotTo(x, B, b, n)
  {
    if n > 0 {
      DotColumnsAgree(x, A, a, B, b, n - 1);
    }
  }

  // ---------------------------------------------------------------------
  // Sums

  /** v[0] + ... + v[n-1], added left to right. */
  function SumTo(v: seq<real>, n: nat): real
    requires n <= |v|
  {
    if n == 0 then 0.0 else SumTo(v, n - 1) + v[n - 1]
  }

  /** `np.sum` of a vector. */
  function Sum(v: seq<real>): real {
    SumTo(v, |v|)
  }

  /** Sums are additive: adding two vectors entry by entry adds their sums. */
  lemma {:induction false} SumToAdd(a: seq<real>, b: seq<real>, c: seq<real>, n: nat)
    requires n <= |a| && n <= |b| && n <= |c|
    requires forall j :: 0 <= j < n ==> c[j] == a[j] + b[j]
    ensures SumTo(c, n) == SumTo(a, n) + SumTo(b, n)
  {
    if n > 0 {
      SumToAdd(a, b, c, n - 1);
    }
  }

  /** A sum of entries that are never negative is never negative, and it is
      zero exactly when every entry is zero. */
  lemma {:induction false} SumToNonnegative(v: seq<real>, n: nat)
    requires n <= |v|
    requires forall j :: 0 <= j < n ==> v[j] >= 0.0
    ensures SumTo(v, n) >= 0.0
    ensures SumTo(v, n) == 0.0 <==> forall j :: 0 <= j < n ==> v[j] == 0.0
  {
    if n > 0 {
      SumToNonnegative(v, n - 1);
    }
  }

  /** `np.sum(m, axis=1)`: the total of each row. */
  function RowTotals(m: Matrix): (r: seq<real>)
    ensures |r| == |m|
  {
    seq(|m|, i requires 0 <= i < |m| => Sum(m[i]))
  }

  /** Column j of m (`m[:, j]`). */
  function Column(m: Matrix, j: nat): (col: seq<real>)
    requires forall i :: 0 <= i < |m| ==> j < |m[i]|
    ensures |col| == |m|
  {
    seq(|m|, i requires 0 <= i < |m| => m[i][j])
  }

  /** `np.sum(m, axis=0)` for a matrix with `cols` columns: the total of each column. */
  function ColumnTotals(m: Matrix, cols: nat): (r: seq<real>)
    requires IsMatrix(m, |m|, cols)
    ensures |r| == cols
  {
    seq(cols, j requires 0 <= j < cols => Sum(Column(m, j)))
  }

  /** The totals of each column over the first n rows only. */
  function ColumnTotalsTo(m: Matrix, cols: nat, n: nat): (r: seq<real>)
    requires IsMatrix(m, |m|, cols) && n <= |m|
    ensures |r| == cols
  {
    seq(cols, j requires 0 <= j < cols => SumTo(Column(m, j), n))
  }

  /** `np.sum` of a whole matrix: each row, then the row totals. */
  function SumAll(m: Matrix): real {
    Sum(RowTotals(m))
  }

  lemma {:induction false} SumZeros(v: seq<real>, n: nat)
    requires n <= |v|
    requires forall j :: 0 <= j < n ==> v[j] == 0.0
    ensures SumTo(v, n) == 0.0
  {
    if n > 0 {
      SumZeros(v, n - 1);
    }
  }

  /** Summing the rows first or the columns first gives the same total. */
  lemma {:induction false} SumSwap(m: Matrix, cols: nat)
    requires IsMatrix(m, |m|, cols)
    ensures SumAll(m) == Sum(ColumnTotals(m, cols))
  {
    var R := RowTotals(m);
    var n := 0;
    SumZeros(ColumnTotalsTo(m, cols, 0), cols);
    while n < |m|
      invariant 0 <= n <= |m|
      invariant SumTo(R, n) == Sum(ColumnTotalsTo(m, cols, n))
    {
      var prev, next := ColumnTotalsTo(m, cols, n), ColumnTotalsTo(m, cols, n + 1);
      forall j | 0 <= j < cols
        ensures next[j] == prev[j] + m[n][j]
      {
        assert Column(m, j)[n] == m[n][j];
      }
      SumToAdd(prev, m[n], next, cols);
      n := n + 1;
    }
    assert ColumnTotalsTo(m, cols, |m|) == ColumnTotals(m, cols);
  }

  // ---------------------------------------------------------------------
  // Squares

  /** `m * m`: every entry squared. */
  function SquareEntries(m: Matrix): (s: Matrix)
    ensures |s| == |m| && forall i :: 0 <= i < |m| ==> |s[i]| == |m[i]|
  {
    seq(|m|, i requires 0 <= i < |m| =>
      seq(|m[i]|, j requires 0 <= j < |m[i]| => Square(m[i][j])))
  }

  /** x * x, one entry of `W * W`. */
  function Square(x: real): real {
    x * x
  }

  /** The squares of r[0 .. n-1], added left to right. */
  function RowSumSq(r: seq<real>, n: nat): real
    requires n <= |r|
  {
    if n == 0 then 0.0 else RowSumSq(r, n - 1) + Square(r[n - 1])
  }

  /** The squares of every entry of rows 0 .. n-1. */
  function SumSqTo(m: Matrix, n: nat): real
    requires n <= |m|
  {
    if n == 0 then 0.0 else SumSqTo(m, n - 1) + RowSumSq(m[n - 1], |m[n - 1]|)
  }

  /** `np.sum(m * m)`. */
  function SumSq(m: Matrix): real {
    SumSqTo(m, |m|)
  }

  /** `np.sum(m * m)` is the total of the squared matrix, summed row by row. */
  lemma {:induction false} SumSqIsSumAll(m: Matrix)
    ensures SumSq(m) == SumAll(SquareEntries(m))
  {
    var S := SquareEntries(m);
    var R := RowTotals(S);
    var n := 0;
    while n < |m|
      invariant 0 <= n <= |m|
      invariant SumTo(R, n) == SumSqTo(m, n)
    {
      var k := 0;
      while k < |m[n]|
        invariant 0 <= k <= |m[n]|
        invariant SumTo(S[n], k) == RowSumSq(m[n], k)
      {
        k := k + 1;
      }
      n := n + 1;
    }
  }

  lemma SquarePositive(x: real)
    requires x != 0.0
    ensures Square(x) > 0.0
  {
    if x > 0.0 {
      calc { Square(x); == x * x; > 0.0; }
    } else {
      calc { Square(x); == (-x) * (-x); > 0.0; }
    }
  }

  /** A square is never negative, and it is zero only for zero. */
  lemma SquareSign(x: real)
    ensures Square(x) >= 0.0
    ensures Square(x) == 0.0 <==> x == 0.0
  {
    if x != 0.0 {
      SquarePositive(x);
    }
  }

  lemma {:induction false} RowSumSqNonnegative(r: seq<real>, n: nat)
    requires n <= |r|
    ensures RowSumSq(r, n) >= 0.0
    ensures RowSumSq(r, n) == 0.0 <==> forall j :: 0 <= j < n ==> r[j] == 0.0
  {
    if n > 0 {
      RowSumSqNonnegative(r, n - 1);
      SquareSign(r[n - 1]);
    }
  }

  lemma {:induction false} SumSqToNonnegative(m: Matrix, n: nat)
    requires n <= |m|
    ensures SumSqTo(m, n) >= 0.0
    ensures SumSqTo(m, n) == 0.0 <==> forall i, j :: 0 <= i < n && 0 <= j < |m[i]| ==> m[i][j] == 0.0
  {
    if n > 0 {
      SumSqToNonnegative(m, n - 1);
      RowSumSqNonnegative(m[n - 1], |m[n - 1]|);
    }
  }

  /** A sum of squares is never negative, and it is zero exactly when every
      entry is zero. */
  lemma SumSqNonnegative(m: Matrix)
    ensures SumSq(m) >= 0.0
    ensures SumSq(m) == 0.0 <==> forall i, j :: 0 <= i < |m| && 0 <= j < |m[i]| ==> m[i][j] == 0.0
  {
    SumSqToNonnegative(m, |m|);
  }

  // ---------------------------------------------------------------------
  // One-entry perturbation

  /** W + h·e_{f,c}: W with entry (f, c) raised by h. */
  function Perturb(W: Matrix, f: nat, c: nat, h: real): (p: Matrix)
    requires f < |W| && c < |W[f]|
    ensures |p| == |W| && forall d :: 0 <= d < |W| ==> |p[d]| == |W[d]|
    ensures forall d, j :: 0 <= d < |W| && 0 <= j < |W[d]| ==>
      p[d][j] == if d == f && j == c then W[d][j] + h else W[d][j]
  {
    W[f := W[f][c := W[f][c] + h]]
  }

  lemma {:induction false} RowSumSqPerturbed(r: seq<real>, p: seq<real>, c: nat, h: real, n: nat)
    requires |p| == |r| && c < |r| && n <= |r|
    requires forall j :: 0 <= j < |r| ==> p[j] == if j == c then r[j] + h else r[j]
    ensures RowSumSq(p, n) == RowSumSq(r, n) + (if c < n then 2.0 * h * r[c] + h * h else 0.0)
  {
    if n > 0 {
      RowSumSqPerturbed(r, p, c, h, n - 1);
      if n - 1 == c {
        assert Square(p[c]) == Square(r[c]) + 2.0 * h * r[c] + h * h;
      }
    }
  }

  lemma {:induction false} SumSqToPerturbed(W: Matrix, f: nat, c: nat, h: real, n: nat)
    requires f < |W| && c < |W[f]| && n <= |W|
    ensures SumSqTo(Perturb(W, f, c, h), n) ==
      SumSqTo(W, n) + (if f < n then 2.0 * h * W[f][c] + h * h else 0.0)
  {
    if n > 0 {
      SumSqToPerturbed(W, f, c, h, n - 1);
      var P := Perturb(W, f, c, h);
      if n - 1 == f {
        RowSumSqPerturbed(W[f], P[f], c, h, |W[f]|);
      } else {
        assert P[n - 1] == W[n - 1];
      }
    }
  }

  /** Raising one entry w of W by h raises `np.sum(W * W)` by exactly 2·h·w + h²:
      the regularization part of a finite difference is known in closed form. */
  lemma PerturbSumSq(W: Matrix, f: nat, c: nat, h: real)
    requires f < |W| && c < |W[f]|
    ensures SumSq(Perturb(W, f, c, h)) == SumSq(W) + 2.0 * h * W[f][c] + h * h
  {
    SumSqToPerturbed(W, f, c, h, |W|);
  }

  // ---------------------------------------------------------------------
  // Tiling, reshaping, transposing, fancy-index update

  /** `np.tile(m, [1, reps])` for a matrix with `cols` columns: `reps` copies
      of m side by side, so entry (d, q) is m[d][q % cols]. */
  function Tile(m: Matrix, cols: nat, reps: nat): (t: Matrix)
    requires IsMatrix(m, |m|, cols)
    ensures IsMatrix(t, |m|, reps * cols)
  {
    seq(|m|, d requires 0 <= d < |m| =>
      seq(reps * cols, q requires 0 <= q < reps * cols => m[d][q % cols]))
  }

  /** Column j of copy k of a tiled matrix is column j of the original. */
  lemma TileAt(m: Matrix, cols: nat, reps: nat, d: nat, k: nat, j: nat)
    requires IsMatrix(m, |m|, cols) && d < |m| && k < reps && j < cols
    ensures k * cols + j < reps * cols
    ensures Tile(m, cols, reps)[d][k * cols + j] == m[d][j]
  {
    MulAddLt(k, j, reps, cols);
    MulAddDivMod(k, j, cols);
  }

  /** `m.reshape(rows, a, b)` for a (rows, a*b) matrix, row-major:
      entry (r, k, j) is m[r][k * b + j]. */
  function Reshape3(m: Matrix, a: nat, b: nat): (t: Tensor3)
    requires IsMatrix(m, |m|, a * b)
    ensures IsTensor3(t, |m|, a, b)
  {
    seq(|m|, r requires 0 <= r < |m| =>
      seq(a, k requires 0 <= k < a =>
        seq(b, j requires 0 <= j < b => MulAddLt(k, j, a, b); m[r][k * b + j])))
  }

  /** `t.transpose([1, 0, 2])` for a tensor of shape (a, b, c): entry
      (k, r, j) is t[r][k][j]. */
  function Transpose102(t: Tensor3, a: nat, b: nat, c: nat): (u: Tensor3)
    requires IsTensor3(t, a, b, c)
    ensures IsTensor3(u, b, a, c)
  {
    seq(b, k requires 0 <= k < b => seq(a, r requires 0 <= r < a => t[r][k]))
  }

  /** `m[f, idx] += h`: the entries of row f at the listed columns raised by
      h. A column listed twice is raised once, as NumPy's buffered update does. */
  function AddAt(m: Matrix, f: nat, idx: seq<nat>, h: real): (p: Matrix)
    requires f < |m|
    requires forall k :: 0 <= k < |idx| ==> idx[k] < |m[f]|
    ensures |p| == |m| && forall d :: 0 <= d < |m| ==> |p[d]| == |m[d]|
    ensures forall d, q :: 0 <= d < |m| && 0 <= q < |m[d]| ==>
      p[d][q] == if d == f && q in idx then m[d][q] + h else m[d][q]
  {
    m[f := seq(|m[f]|, q requires 0 <= q < |m[f]| => if q in idx then m[f][q] + h else m[f][q])]
  }
}
