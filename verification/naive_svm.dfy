/** `svm_loss_naive`: the hinge loss computed with nested loops, and a
    finite-difference "gradient" obtained by raising each weight W[f, c] in
    place by h, recomputing the hinge for the current sample, and putting the
    weight back. */
module NaiveSvm {
  import opened Matrices
  import opened HingeLoss
  import opened ArrayOps

  /** The loop over classes j: starting from `acc`, add the margin
      scores[j] - scores[yi] + 1 of every class j other than yi, when that
      margin is strictly positive. */
  method AccumulateHinge(acc: real, scores: seq<real>, yi: nat) returns (total: real)
    requires yi < |scores|
    ensures total == acc + HingeTo(scores, yi, |scores|)
  {
    total := acc;
    var correct := scores[yi];
    for j := 0 to |scores|
      invariant total == acc + HingeTo(scores, yi, j)
    {
      if j == yi {
        continue;
      }
      var margin := scores[j] - correct + 1.0;
      if margin > 0.0 {
        total := total + margin;
      }
    }
  }

  /** One probe of the finite difference (the body of the `for c` loop of
      `svm_loss_naive`): raise
      W[f, c] by h, add the hinge of sample x at the raised weights to
      dLoss[f, c], record sum(W * W) of the raised weights in dReg[f, c] when
      this is the first sample, and put W[f, c] back. */
  method ProbeEntry(W: array2<real>, ghost W0: Matrix, x: seq<real>, yi: nat, first: bool, f: nat, c: nat,
                    dLoss: array2<real>, dReg: array2<real>)
    requires Holds(W, W0)
    requires f < W.Length0 && c < W.Length1 && yi < W.Length1 && |x| == W.Length0
    requires dLoss.Length0 == W.Length0 && dLoss.Length1 == W.Length1
    requires dReg.Length0 == W.Length0 && dReg.Length1 == W.Length1
    requires dLoss != W && dReg != W && dLoss != dReg
    modifies W, dLoss, dReg
    ensures Holds(W, W0)
    ensures dLoss[f, c] == old(dLoss[f, c]) + SampleHinge(x, Perturb(W0, f, c, H), W.Length1, yi)
    ensures dReg[f, c] == if first then SumSq(Perturb(W0, f, c, H)) else old(dReg[f, c])
    ensures forall f', c' :: 0 <= f' < W.Length0 && 0 <= c' < W.Length1 && (f' != f || c' != c) ==>
      dLoss[f', c'] == old(dLoss[f', c']) && dReg[f', c'] == old(dReg[f', c'])
  {
    var C := W.Length1;
    var oldW := W[f, c];
    W[f, c] := W[f, c] + H;
    var raised := Contents(W);
    HoldsUnique(W, raised, Perturb(W0, f, c, H));

    var dScores := VecMat(x, raised, C);
    dLoss[f, c] := AccumulateHinge(dLoss[f, c], dScores, yi);
    if first {
      dReg[f, c] := SumSq(raised);
    }

    W[f, c] := oldW;
  }

  /** The loops over f and c for one sample x: every entry of W is probed in
      turn, row by row. */
  method ProbeSample(W: array2<real>, ghost W0: Matrix, x: seq<real>, yi: nat, first: bool,
                     dLoss: array2<real>, dReg: array2<real>)
    requires Holds(W, W0)
    requires yi < W.Length1 && |x| == W.Length0
    requires dLoss.Length0 == W.Length0 && dLoss.Length1 == W.Length1
    requires dReg.Length0 == W.Length0 && dReg.Length1 == W.Length1
    requires dLoss != W && dReg != W && dLoss != dReg
    modifies W, dLoss, dReg
    ensures Holds(W, W0)
    ensures forall f, c :: 0 <= f < W.Length0 && 0 <= c < W.Length1 ==>
      dLoss[f, c] == old(dLoss[f, c]) + SampleHinge(x, Perturb(W0, f, c, H), W.Length1, yi)
    ensures forall f, c :: 0 <= f < W.Length0 && 0 <= c < W.Length1 ==>
      dReg[f, c] == if first then SumSq(Perturb(W0, f, c, H)) else old(dReg[f, c])
  {
    var D, C := W.Length0, W.Length1;
    var f := 0;
    while f < D
      invariant 0 <= f <= D
      invariant Holds(W, W0)
      invariant forall f', c' :: 0 <= f' < D && 0 <= c' < C ==>
        dLoss[f', c'] == old(dLoss[f', c']) +
          (if f' < f then SampleHinge(x, Perturb(W0, f', c', H), C, yi) else 0.0)
      invariant forall f', c' :: 0 <= f' < D && 0 <= c' < C ==>
        dReg[f', c'] == if first && f' < f then SumSq(Perturb(W0, f', c', H)) else old(dReg[f', c'])
    {
      var c := 0;
      while c < C
        invariant 0 <= c <= C
        invariant Holds(W, W0)
        invariant forall f', c' :: 0 <= f' < D && 0 <= c' < C ==>
          dLoss[f', c'] == old(dLoss[f', c']) +
            (if f' < f || (f' == f && c' < c) then SampleHinge(x, Perturb(W0, f', c', H), C, yi) else 0.0)
        invariant forall f', c' :: 0 <= f' < D && 0 <= c' < C ==>
          dReg[f', c'] == if first && (f' < f || (f' == f && c' < c)) then SumSq(Perturb(W0, f', c', H))
                          else old(dReg[f', c'])
      {
        ProbeEntry(W, W0, x, yi, first, f, c, dLoss, dReg);
        c := c + 1;
      }
      f := f + 1;
    }
  }

  /** The running totals after samples 0 .. n-1: dLoss[f, c] sums their
      hinge at W0 + h·e_{f,c}, and dReg[f, c] holds sum(W * W) of those raised
      weights once the first sample has been probed. */
  predicate ProbedUpTo(X: Matrix, y: seq<int>, W0: Matrix, C: nat, dLoss: array2<real>, dReg: array2<real>, n: nat)
    reads dLoss, dReg
    requires IsMatrix(W0, |W0|, C) && ValidBatch(X, y, |W0|, C) && n <= |X|
    requires dLoss.Length0 == dReg.Length0 == |W0| && dLoss.Length1 == dReg.Length1 == C
  {
    forall f, c :: 0 <= f < |W0| && 0 <= c < C ==>
      dLoss[f, c] == DataSum(X, y, Perturb(W0, f, c, H), C, n) &&
      dReg[f, c] == if n == 0 then 0.0 else SumSq(Perturb(W0, f, c, H))
  }

  /** One pass of the `for i` loop of `svm_loss_naive` for sample i: the
      sample's hinge at W is added to the running sum, and every entry is
      probed for it, so that each running total now covers samples 0 .. i. */
  method VisitSample(W: array2<real>, ghost W0: Matrix, weights: Matrix, X: Matrix, y: seq<int>, i: nat,
                     hinge: real, dLoss: array2<real>, dReg: array2<real>)
    returns (hinge': real)
    requires Holds(W, W0) && weights == W0 && ValidBatch(X, y, W.Length0, W.Length1) && i < |X|
    requires dLoss.Length0 == W.Length0 && dLoss.Length1 == W.Length1
    requires dReg.Length0 == W.Length0 && dReg.Length1 == W.Length1
    requires dLoss != W && dReg != W && dLoss != dReg
    requires hinge == DataSum(X, y, W0, W.Length1, i)
    requires ProbedUpTo(X, y, W0, W.Length1, dLoss, dReg, i)
    modifies W, dLoss, dReg
    ensures Holds(W, W0)
    ensures hinge' == DataSum(X, y, W0, W.Length1, i + 1)
    ensures ProbedUpTo(X, y, W0, W.Length1, dLoss, dReg, i + 1)
  {
    var D, C := W.Length0, W.Length1;
    var scores := VecMat(X[i], weights, C);
    hinge' := AccumulateHinge(hinge, scores, y[i]);
    ProbeSample(W, W0, X[i], y[i], i == 0, dLoss, dReg);
    DataSumNext(X, y, W0, C, i);
    forall f, c | 0 <= f < D && 0 <= c < C {
      DataSumNext(X, y, Perturb(W0, f, c, H), C, i);
    }
  }

  /** The `for i` loop over samples of `svm_loss_naive`: the summed hinge at W, and for
      every entry (f, c) the summed hinge at W + h·e_{f,c} together with
      sum(W * W) of the raised weights, recorded while probing the first
      sample. */
  method ProbeBatch(W: array2<real>, ghost W0: Matrix, X: Matrix, y: seq<int>)
    returns (hinge: real, dLoss: array2<real>, dReg: array2<real>)
    requires Holds(W, W0) && ValidBatch(X, y, W.Length0, W.Length1)
    modifies W
    ensures Holds(W, W0)
    ensures hinge == DataSum(X, y, W0, W.Length1, |X|)
    ensures fresh(dLoss) && dLoss.Length0 == W.Length0 && dLoss.Length1 == W.Length1
    ensures fresh(dReg) && dReg.Length0 == W.Length0 && dReg.Length1 == W.Length1 && dReg != dLoss
    ensures forall f, c :: 0 <= f < W.Length0 && 0 <= c < W.Length1 ==>
      dLoss[f, c] == DataSum(X, y, Perturb(W0, f, c, H), W.Length1, |X|) &&
      dReg[f, c] == SumSq(Perturb(W0, f, c, H))
  {
    var D, C, N := W.Length0, W.Length1, |X|;
    hinge := 0.0;
    dLoss := new real[D, C]((_, _) => 0.0);
    dReg := new real[D, C]((_, _) => 0.0);
    // W holds the same weights whenever a sample's scores are taken.
    var weights := Contents(W);
    HoldsUnique(W, weights, W0);

    var i := 0;
    while i < N
      invariant 0 <= i <= N
      invariant Holds(W, W0)
      invariant hinge == DataSum(X, y, W0, C, i)
      invariant ProbedUpTo(X, y, W0, C, dLoss, dReg, i)
    {
      hinge := VisitSample(W, W0, weights, X, y, i, hinge, dLoss, dReg);
      i := i + 1;
    }
  }

  /** `svm_loss_naive` on weights W holding the matrix W0: returns the loss at
      W0 and dW[f, c] = (loss at W0 + h·e_{f,c} - loss at W0) / h for every
      entry, and leaves W holding W0 again. */
  method SvmLossNaive(W: array2<real>, ghost W0: Matrix, X: Matrix, y: seq<int>, reg: real)
    returns (loss: real, dW: array2<real>)
    requires Holds(W, W0) && ValidBatch(X, y, W.Length0, W.Length1)
    modifies W
    ensures Holds(W, W0)
    ensures loss == Loss(X, y, W0, W.Length1, reg)
    ensures fresh(dW) && dW.Length0 == W.Length0 && dW.Length1 == W.Length1
    ensures forall f, c :: 0 <= f < W.Length0 && 0 <= c < W.Length1 ==>
      dW[f, c] == FiniteDiff(X, y, W0, W.Length1, reg, f, c)
  {
    var hinge, dLoss, dReg := ProbeBatch(W, W0, X, y);
    var weights := Contents(W);
    HoldsUnique(W, weights, W0);
    loss := hinge / (|X| as real);
    loss := loss + 0.5 * reg * SumSq(weights);
    DivideEntries(dLoss, |X|);
    dW := RegularizedQuotients(X, y, weights, reg, loss, dLoss, dReg);
  }
}
