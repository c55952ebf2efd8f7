/** `svm_loss_vectorized`: the same loss computed with whole-array operations,
    and the same finite-difference quotients obtained one feature row f at a
    time. W is tiled C times side by side; raising the diagonal columns
    k * C + k of row f by h makes copy k of the tiled weights equal to
    W + h·e_{f,k}, so one product with X scores all C probes of row f at once. */
module VectorizedSvm {
  import opened Matrices
  import opened HingeLoss
  import opened ArrayOps

  // ---------------------------------------------------------------------
  // The whole-array hinge (`loss = np.sum(...)` and `d_loss[f, :] = ...`)

  /** `scores[np.arange(N), y]`: each sample's score for its own label. */
  function CorrectScores(S: Matrix, y: seq<int>, C: nat): (cs: seq<real>)
    requires IsMatrix(S, |S|, C) && |y| == |S|
    requires forall i :: 0 <= i < |y| ==> 0 <= y[i] < C
    ensures |cs| == |S|
  {
    seq(|S|, i requires 0 <= i < |S| => S[i][y[i]])
  }

  /** `np.maximum(scores - correct_class_scores + 1, 0)`: every margin,
      including the label's own class, with the negative ones cut to zero. */
  function RectifiedMargins(S: Matrix, cs: seq<real>): (m: Matrix)
    requires |cs| == |S|
    ensures |m| == |S| && forall i :: 0 <= i < |S| ==> |m[i]| == |S[i]|
  {
    seq(|S|, i requires 0 <= i < |S| =>
      seq(|S[i]|, j requires 0 <= j < |S[i]| => Rectify(S[i][j] - cs[i] + 1.0)))
  }

  /** `v - 1`: one subtracted from every entry. */
  function MinusOne(v: seq<real>): (r: seq<real>)
    ensures |r| == |v|
  {
    seq(|v|, i requires 0 <= i < |v| => v[i] - 1.0)
  }

  /** `np.sum(np.sum(rect_margin, axis=1) - 1)` for scores S: the rectified
      margins of each sample summed, one taken off for the label's own class
      (whose margin is exactly 1), and the results added over the samples. */
  function BatchHinge(S: Matrix, y: seq<int>, C: nat): real
    requires IsMatrix(S, |S|, C) && |y| == |S|
    requires forall i :: 0 <= i < |y| ==> 0 <= y[i] < C
  {
    Sum(MinusOne(RowTotals(RectifiedMargins(S, CorrectScores(S, y, C)))))
  }

  /** The rectified margins of a score row s with label yi, summed over the
      classes 0 .. n-1, are the hinge over those classes plus the label's own
      margin of 1 once the label's class is among them. */
  lemma {:induction false} RectifiedRowSum(s: seq<real>, yi: nat, r: seq<real>, n: nat)
    requires yi < |s| && |r| == |s| && n <= |s|
    requires forall j :: 0 <= j < |s| ==> r[j] == Rectify(s[j] - s[yi] + 1.0)
    ensures SumTo(r, n) == HingeTo(s, yi, n) + (if yi < n then 1.0 else 0.0)
  {
    if n > 0 {
      RectifiedRowSum(s, yi, r, n - 1);
    }
  }

  /** Per-sample hinges added over samples 0 .. n-1 give the running sum of
      the loops. */
  lemma {:induction false} SumToIsDataSum(X: Matrix, y: seq<int>, W: Matrix, C: nat, v: seq<real>, n: nat)
    requires IsMatrix(W, |W|, C) && ValidBatch(X, y, |W|, C) && n <= |X| && n <= |v|
    requires forall i :: 0 <= i < n ==> v[i] == SampleHinge(X[i], W, C, y[i])
    ensures SumTo(v, n) == DataSum(X, y, W, C, n)
  {
    if n > 0 {
      SumToIsDataSum(X, y, W, C, v, n - 1);
    }
  }

  /** The whole-array hinge of the scores `X.dot(W)` equals the summed hinge
      of the loops: subtracting one per sample removes exactly the label's
      own margin. */
  lemma BatchHingeIsDataSum(X: Matrix, y: seq<int>, W: Matrix, C: nat)
    requires IsMatrix(W, |W|, C) && ValidBatch(X, y, |W|, C)
    ensures BatchHinge(MatMul(X, W, |W|, C), y, C) == DataSum(X, y, W, C, |X|)
  {
    var S := MatMul(X, W, |W|, C);
    var cs := CorrectScores(S, y, C);
    var rect := RectifiedMargins(S, cs);
    var v := MinusOne(RowTotals(rect));
    forall i | 0 <= i < |X|
      ensures v[i] == SampleHinge(X[i], W, C, y[i])
    {
      assert S[i] == VecMat(X[i], W, C);
      RectifiedRowSum(S[i], y[i], rect[i], C);
    }
    SumToIsDataSum(X, y, W, C, v, |X|);
  }

  // ---------------------------------------------------------------------
  // The tiled weights (`cidx`, `replicated_W`, `reshaped_W`)

  /** `cidx = np.arange(C) * C + np.arange(C)`: column k of copy k of the
      tiled weights. */
  function DiagonalIndices(C: nat): (cidx: seq<nat>)
    ensures |cidx| == C
  {
    seq(C, k requires 0 <= k < C => k * C + k)
  }

  /** Entry k of cidx lies in copy k, at column k of that copy. */
  lemma DiagonalLayout(C: nat)
    ensures forall k :: 0 <= k < C ==>
      DiagonalIndices(C)[k] < C * C && DiagonalIndices(C)[k] / C == k && DiagonalIndices(C)[k] % C == k
  {
    forall k | 0 <= k < C
      ensures DiagonalIndices(C)[k] < C * C && DiagonalIndices(C)[k] / C == k && DiagonalIndices(C)[k] % C == k
    {
      MulAddLt(k, k, C, C);
      MulAddDivMod(k, k, C);
    }
  }

  /** A column q of the tiled weights is listed in cidx exactly when its copy
      q / C and its column within the copy q % C agree. */
  lemma DiagonalMember(C: nat, q: nat)
    requires q < C * C
    ensures q in DiagonalIndices(C) <==> q / C == q % C
  {
    var cidx := DiagonalIndices(C);
    DiagonalLayout(C);
    var k, j := q / C, q % C;
    assert q == k * C + j;
    if k >= C {
      MulMono(C, k, C);
      assert false;
    }
    if k == j {
      assert cidx[k] == q;
    }
  }

  /** `replicated_W` once row f of its diagonal columns has been raised by h
      (`np.tile` followed by `replicated_W[f, cidx] += h`). */
  function ProbedTile(W: Matrix, C: nat, f: nat, h: real): (R: Matrix)
    requires IsMatrix(W, |W|, C) && f < |W|
    ensures IsMatrix(R, |W|, C * C)
  {
    DiagonalLayout(C);
    AddAt(Tile(W, C, C), f, DiagonalIndices(C), h)
  }

  /** Column j of copy k of the probed tile is column j of W + h·e_{f,k}. */
  lemma ProbedTileAt(W: Matrix, C: nat, f: nat, h: real, d: nat, k: nat, j: nat)
    requires IsMatrix(W, |W|, C) && f < |W| && d < |W| && k < C && j < C
    ensures k * C + j < C * C
    ensures ProbedTile(W, C, f, h)[d][k * C + j] == Perturb(W, f, k, h)[d][j]
  {
    TileAt(W, C, C, d, k, j);
    MulAddDivMod(k, j, C);
    DiagonalMember(C, k * C + j);
  }

  /** Column k * C + j of the probed tile is column j of W + h·e_{f,k}, in
      every row. */
  lemma ProbedColumn(W: Matrix, C: nat, f: nat, h: real, k: nat, j: nat)
    requires IsMatrix(W, |W|, C) && f < |W| && k < C && j < C
    ensures k * C + j < C * C
    ensures forall d :: 0 <= d < |W| ==> ProbedTile(W, C, f, h)[d][k * C + j] == Perturb(W, f, k, h)[d][j]
  {
    MulAddLt(k, j, C, C);
    forall d | 0 <= d < |W|
      ensures ProbedTile(W, C, f, h)[d][k * C + j] == Perturb(W, f, k, h)[d][j]
    {
      ProbedTileAt(W, C, f, h, d, k, j);
    }
  }

  /** `replicated_W.reshape(D, C, C).transpose([1, 0, 2])`: copy k of the
      probed tile is W + h·e_{f,k}. */
  lemma ProbedWeights(W: Matrix, C: nat, f: nat, h: real, k: nat)
    requires IsMatrix(W, |W|, C) && f < |W| && k < C
    ensures Transpose102(Reshape3(ProbedTile(W, C, f, h), C, C), |W|, C, C)[k] == Perturb(W, f, k, h)
  {
    var T := Transpose102(Reshape3(ProbedTile(W, C, f, h), C, C), |W|, C, C);
    var P := Perturb(W, f, k, h);
    forall d | 0 <= d < |W|
      ensures T[k][d] == P[d]
    {
      forall j | 0 <= j < C
        ensures T[k][d][j] == P[d][j]
      {
        ProbedTileAt(W, C, f, h, d, k, j);
      }
    }
  }

  /** Column k * C + j of `X.dot(replicated_W)` is column j of
      `X.dot(W + h·e_{f,k})`. */
  lemma ProbedScoreAt(X: Matrix, W: Matrix, C: nat, f: nat, h: real, k: nat, i: nat, j: nat)
    requires IsMatrix(X, |X|, |W|) && IsMatrix(W, |W|, C) && f < |W| && k < C && i < |X| && j < C
    ensures k * C + j < C * C
    ensures MatMul(X, ProbedTile(W, C, f, h), |W|, C * C)[i][k * C + j] == MatMul(X, Perturb(W, f, k, h), |W|, C)[i][j]
  {
    ProbedColumn(W, C, f, h, k, j);
    DotColumnsAgree(X[i], ProbedTile(W, C, f, h), k * C + j, Perturb(W, f, k, h), j, |W|);
  }

  /** `X.dot(replicated_W).reshape(N, C, C).transpose([1, 0, 2])`: slice k
      of the probed scores is `X.dot(W + h·e_{f,k})`. */
  lemma ProbedScores(X: Matrix, W: Matrix, C: nat, f: nat, h: real, k: nat)
    requires IsMatrix(X, |X|, |W|) && IsMatrix(W, |W|, C) && f < |W| && k < C
    ensures Transpose102(Reshape3(MatMul(X, ProbedTile(W, C, f, h), |W|, C * C), C, C), |X|, C, C)[k]
      == MatMul(X, Perturb(W, f, k, h), |W|, C)
  {
    var M := MatMul(X, ProbedTile(W, C, f, h), |W|, C * C);
    var T := Transpose102(Reshape3(M, C, C), |X|, C, C);
    var S := MatMul(X, Perturb(W, f, k, h), |W|, C);
    forall i | 0 <= i < |X|
      ensures T[k][i] == S[i]
    {
      forall j | 0 <= j < C
        ensures T[k][i][j] == S[i][j]
      {
        ProbedScoreAt(X, W, C, f, h, k, i, j);
        assert T[k][i][j] == M[i][k * C + j];
      }
    }
  }

  // ---------------------------------------------------------------------
  // One row of d_loss and d_reg (`d_loss[f, :]` and `d_reg[f, :]`)

  /** `np.sum(np.sum(rect_margin, axis=2) - 1, axis=1) / N` for probed scores
      T of shape (C, N, C): the whole-array hinge of each slice, averaged. */
  function ProbedLossRow(T: Tensor3, y: seq<int>, C: nat, N: nat): (row: seq<real>)
    requires IsTensor3(T, C, N, C) && |y| == N && N > 0
    requires forall i :: 0 <= i < |y| ==> 0 <= y[i] < C
    ensures |row| == C
  {
    seq(C, k requires 0 <= k < C => BatchHinge(T[k], y, C) / (N as real))
  }

  /** `np.sum(np.sum(reshaped_W * reshaped_W, axis=1), axis=1)` for reshaped
      weights T of shape (C, D, C): each slice squared, summed down its
      columns, then across. */
  function ProbedRegRow(T: Tensor3, D: nat, C: nat): (row: seq<real>)
    requires IsTensor3(T, C, D, C)
    ensures |row| == C
  {
    seq(C, k requires 0 <= k < C => Sum(ColumnTotals(SquareEntries(T[k]), C)))
  }

  /** Squaring, summing down the columns and then across is sum(W * W). */
  lemma ColumnSquaresIsSumSq(m: Matrix, cols: nat)
    requires IsMatrix(m, |m|, cols)
    ensures IsMatrix(SquareEntries(m), |m|, cols)
    ensures Sum(ColumnTotals(SquareEntries(m), cols)) == SumSq(m)
  {
    SumSwap(SquareEntries(m), cols);
    SumSqIsSumAll(m);
  }

  /** Entry k of the rows written for feature f is what the loops record for
      the entry (f, k): the averaged hinge at W + h·e_{f,k} and sum(W * W) of
      those raised weights. */
  lemma ProbedRows(X: Matrix, y: seq<int>, W: Matrix, C: nat, f: nat, k: nat)
    requires IsMatrix(W, |W|, C) && ValidBatch(X, y, |W|, C) && f < |W| && k < C
    ensures ProbedLossRow(Transpose102(Reshape3(MatMul(X, ProbedTile(W, C, f, H), |W|, C * C), C, C), |X|, C, C),
                          y, C, |X|)[k]
      == DataSum(X, y, Perturb(W, f, k, H), C, |X|) / (|X| as real)
    ensures ProbedRegRow(Transpose102(Reshape3(ProbedTile(W, C, f, H), C, C), |W|, C, C), |W|, C)[k]
      == SumSq(Perturb(W, f, k, H))
  {
    ProbedScores(X, W, C, f, H, k);
    BatchHingeIsDataSum(X, y, Perturb(W, f, k, H), C);
    ProbedWeights(W, C, f, H, k);
    ColumnSquaresIsSumSq(Perturb(W, f, k, H), C);
  }

  // ---------------------------------------------------------------------
  // The method

  /** `np.tile(W, [1, C])` into a fresh array. */
  method TileArray(W: Matrix, C: nat) returns (rw: array2<real>)
    requires IsMatrix(W, |W|, C)
    ensures fresh(rw) && Holds(rw, Tile(W, C, C))
  {
    var T := Tile(W, C, C);
    rw := new real[|W|, C * C]((d, q) requires 0 <= d < |W| && 0 <= q < C * C => T[d][q]);
  }

  /** One pass of the `for f` loop of `svm_loss_vectorized`: raise the
      diagonal columns of row f, score all C probes of the row with one
      product, write row f of d_loss and d_reg, and put the diagonal back. */
  method ProbeRow(rw: array2<real>, W: Matrix, X: Matrix, y: seq<int>, f: nat,
                  dLoss: array2<real>, dReg: array2<real>)
    requires ValidBatch(X, y, |W|, dLoss.Length1) && IsMatrix(W, |W|, dLoss.Length1)
    requires Holds(rw, Tile(W, dLoss.Length1, dLoss.Length1)) && f < |W|
    requires dLoss.Length0 == dReg.Length0 == |W| && dReg.Length1 == dLoss.Length1
    requires dLoss != dReg && rw != dLoss && rw != dReg
    modifies rw, dLoss, dReg
    ensures Holds(rw, Tile(W, dLoss.Length1, dLoss.Length1))
    ensures forall k :: 0 <= k < dLoss.Length1 ==>
      dLoss[f, k] == DataSum(X, y, Perturb(W, f, k, H), dLoss.Length1, |X|) / (|X| as real) &&
      dReg[f, k] == SumSq(Perturb(W, f, k, H))
    ensures forall d, k :: 0 <= d < |W| && 0 <= k < dLoss.Length1 && d != f ==>
      dLoss[d, k] == old(dLoss[d, k]) && dReg[d, k] == old(dReg[d, k])
  {
    var D, C, N := |W|, dLoss.Length1, |X|;
    var cidx := DiagonalIndices(C);
    DiagonalLayout(C);
    assert rw.Length1 == |Tile(W, C, C)[f]| == C * C;

    var oldW := EntriesAt(rw, f, cidx);
    AddAtIndices(rw, Tile(W, C, C), f, cidx, H);
    var R := Contents(rw);
    HoldsUnique(rw, R, ProbedTile(W, C, f, H));

    var scores := Transpose102(Reshape3(MatMul(X, R, D, C * C), C, C), N, C, C);
    var lossRow := ProbedLossRow(scores, y, C, N);
    forall k | 0 <= k < C {
      dLoss[f, k] := lossRow[k];
    }

    var reshaped := Transpose102(Reshape3(R, C, C), D, C, C);
    var regRow := ProbedRegRow(reshaped, D, C);
    forall k | 0 <= k < C {
      dReg[f, k] := regRow[k];
    }

    StoreAtIndices(rw, f, cidx, oldW);

    forall k | 0 <= k < C
      ensures lossRow[k] == DataSum(X, y, Perturb(W, f, k, H), C, N) / (N as real)
      ensures regRow[k] == SumSq(Perturb(W, f, k, H))
    {
      ProbedRows(X, y, W, C, f, k);
    }
  }

  /** The `for f` loop over features of `svm_loss_vectorized`: the tiled weights are probed
      row by row, and row f of d_loss and d_reg records, for every class k,
      the averaged hinge at W + h·e_{f,k} and sum(W * W) of those raised
      weights. */
  method ProbeRows(W: Matrix, C: nat, X: Matrix, y: seq<int>) returns (dLoss: array2<real>, dReg: array2<real>)
    requires IsMatrix(W, |W|, C) && ValidBatch(X, y, |W|, C)
    ensures fresh(dLoss) && dLoss.Length0 == |W| && dLoss.Length1 == C
    ensures fresh(dReg) && dReg.Length0 == |W| && dReg.Length1 == C && dReg != dLoss
    ensures forall f, k :: 0 <= f < |W| && 0 <= k < C ==>
      dLoss[f, k] == DataSum(X, y, Perturb(W, f, k, H), C, |X|) / (|X| as real) &&
      dReg[f, k] == SumSq(Perturb(W, f, k, H))
  {
    dLoss := new real[|W|, C]((_, _) => 0.0);
    dReg := new real[|W|, C]((_, _) => 0.0);
    var rw := TileArray(W, C);
    for f := 0 to |W|
      invariant Holds(rw, Tile(W, C, C))
      invariant forall f', k :: 0 <= f' < f && 0 <= k < C ==>
        dLoss[f', k] == DataSum(X, y, Perturb(W, f', k, H), C, |X|) / (|X| as real) &&
        dReg[f', k] == SumSq(Perturb(W, f', k, H))
    {
      ProbeRow(rw, W, X, y, f, dLoss, dReg);
    }
  }

  /** The first `loss = ...` of `svm_loss_vectorized`: the scores `X.dot(W)` of the whole batch, their
      whole-array hinge, averaged over the N samples, which is the averaged
      hinge of the loops. */
  method AveragedHinge(X: Matrix, y: seq<int>, W: Matrix, C: nat) returns (loss: real)
    requires IsMatrix(W, |W|, C) && ValidBatch(X, y, |W|, C)
    ensures loss == DataSum(X, y, W, C, |X|) / (|X| as real)
  {
    var scores := MatMul(X, W, |W|, C);
    loss := BatchHinge(scores, y, C) / (|X| as real);
    BatchHingeIsDataSum(X, y, W, C);
  }

  /** `svm_loss_vectorized` on weights W holding the matrix W0: the same
      loss and the same finite-difference quotients as `svm_loss_naive`, with
      W left untouched. */
  method SvmLossVectorized(W: array2<real>, ghost W0: Matrix, X: Matrix, y: seq<int>, reg: real)
    returns (loss: real, dW: array2<real>)
    requires Holds(W, W0) && ValidBatch(X, y, W.Length0, W.Length1)
    ensures loss == Loss(X, y, W0, W.Length1, reg)
    ensures fresh(dW) && dW.Length0 == W.Length0 && dW.Length1 == W.Length1
    ensures forall f, c :: 0 <= f < W.Length0 && 0 <= c < W.Length1 ==>
      dW[f, c] == FiniteDiff(X, y, W0, W.Length1, reg, f, c)
  {
    var weights := Contents(W);
    HoldsUnique(W, weights, W0);
    var C := W.Length1;

    loss := AveragedHinge(X, y, weights, C);

    var dLoss, dReg := ProbeRows(weights, C, X, y);
    loss := loss + 0.5 * reg * SumSq(weights);
    dW := RegularizedQuotients(X, y, weights, reg, loss, dLoss, dReg);
  }
}
