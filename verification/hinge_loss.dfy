/** The multiclass hinge (structured SVM) loss of a linear classifier with
    weights W (D x C) on a minibatch X (N x D) with labels y, as the loops of
    `svm_loss_naive` define it, and the finite-difference quotient that both
    `svm_loss_naive` and `svm_loss_vectorized` return as the "gradient". */
module HingeLoss {
  import opened Matrices

  /** The finite-difference step h = 1e-5 of both versions. */
  const H: real := 0.00001

  /** What the callers must supply: N >= 1 samples (the loss is divided by
      N), each a row of D features, and one label in [0, C) per sample. */
  predicate ValidBatch(X: Matrix, y: seq<int>, D: nat, C: nat) {
    |X| >= 1 && |y| == |X| && IsMatrix(X, |X|, D) &&
    forall i :: 0 <= i < |y| ==> 0 <= y[i] < C
  }

  /** The amount one class adds: its margin when strictly positive, else
      nothing; that is, the larger of the margin and 0. */
  function Rectify(margin: real): real {
    if margin > 0.0 then margin else 0.0
  }

  /** The hinge of one sample with scores s and label yi, over the classes
      0 .. n-1: the label's own class is skipped, and every other class j adds
      its margin s[j] - s[yi] + 1 when that margin is strictly positive. */
  function HingeTo(s: seq<real>, yi: nat, n: nat): (r: real)
    requires yi < |s| && n <= |s|
    ensures r >= 0.0
  {
    if n == 0 then 0.0
    else
      var m := if n - 1 == yi then 0.0 else Rectify(s[n - 1] - s[yi] + 1.0);
      HingeTo(s, yi, n - 1) + m
  }

  /** The hinge of sample x (scores `x.dot(W)`) over all C classes. */
  function SampleHinge(x: seq<real>, W: Matrix, C: nat, yi: nat): real
    requires IsMatrix(W, |x|, C) && yi < C
  {
    HingeTo(VecMat(x, W, C), yi, C)
  }

  /** The hinge summed over samples 0 .. n-1. */
  function DataSum(X: Matrix, y: seq<int>, W: Matrix, C: nat, n: nat): (r: real)
    requires IsMatrix(W, |W|, C) && ValidBatch(X, y, |W|, C) && n <= |X|
    ensures r >= 0.0
  {
    if n == 0 then 0.0
    else DataSum(X, y, W, C, n - 1) + SampleHinge(X[n - 1], W, C, y[n - 1])
  }

  /** One more sample adds its own hinge to the running sum. */
  lemma DataSumNext(X: Matrix, y: seq<int>, W: Matrix, C: nat, n: nat)
    requires IsMatrix(W, |W|, C) && ValidBatch(X, y, |W|, C) && n < |X|
    ensures DataSum(X, y, W, C, n + 1) == DataSum(X, y, W, C, n) + SampleHinge(X[n], W, C, y[n])
  {
  }

  /** The returned loss: the hinge averaged over the N samples, plus
      0.5 * reg * sum(W * W). */
  function Loss(X: Matrix, y: seq<int>, W: Matrix, C: nat, reg: real): real
    requires IsMatrix(W, |W|, C) && ValidBatch(X, y, |W|, C)
  {
    DataSum(X, y, W, C, |X|) / (|X| as real) + 0.5 * reg * SumSq(W)
  }

  /** The returned dW[f, c]: the loss at W + h·e_{f,c} minus the loss at W,
      divided by h. */
  function FiniteDiff(X: Matrix, y: seq<int>, W: Matrix, C: nat, reg: real, f: nat, c: nat): real
    requires IsMatrix(W, |W|, C) && ValidBatch(X, y, |W|, C) && f < |W| && c < C
  {
    (Loss(X, y, Perturb(W, f, c, H), C, reg) - Loss(X, y, W, C, reg)) / H
  }

  /** Every wrong class j scores at least 1 below the label's class. */
  predicate SampleSeparated(s: seq<real>, yi: nat)
    requires yi < |s|
  {
    forall j :: 0 <= j < |s| && j != yi ==> s[j] <= s[yi] - 1.0
  }

  /** Every sample is separated with margin 1. */
  predicate Separated(X: Matrix, y: seq<int>, W: Matrix, C: nat)
    requires IsMatrix(W, |W|, C) && ValidBatch(X, y, |W|, C)
  {
    forall i :: 0 <= i < |X| ==> SampleSeparated(VecMat(X[i], W, C), y[i])
  }

  // ---------------------------------------------------------------------
  // One sample

  /** A sample's hinge is zero exactly when none of its wrong classes has a
      strictly positive margin. */
  lemma {:induction false} HingeZeroIff(s: seq<real>, yi: nat, n: nat)
    requires yi < |s| && n <= |s|
    ensures HingeTo(s, yi, n) == 0.0 <==>
      forall j :: 0 <= j < n && j != yi ==> s[j] - s[yi] + 1.0 <= 0.0
  {
    if n > 0 {
      HingeZeroIff(s, yi, n - 1);
    }
  }

  /** Every wrong class j adds at least its margin: the hinge is never below
      s[j] - s[yi] + 1, and the label's own class adds nothing. */
  lemma {:induction false} HingeCoversMargin(s: seq<real>, yi: nat, n: nat, j: nat)
    requires yi < |s| && n <= |s| && j < n && j != yi
    ensures HingeTo(s, yi, n) >= s[j] - s[yi] + 1.0
  {
    if j < n - 1 {
      HingeCoversMargin(s, yi, n - 1, j);
    }
  }

  // ---------------------------------------------------------------------
  // The whole batch

  /** The summed hinge is zero exactly when every sample's hinge is. */
  lemma {:induction false} DataSumZeroIff(X: Matrix, y: seq<int>, W: Matrix, C: nat, n: nat)
    requires IsMatrix(W, |W|, C) && ValidBatch(X, y, |W|, C) && n <= |X|
    ensures DataSum(X, y, W, C, n) == 0.0 <==>
      forall i :: 0 <= i < n ==> SampleHinge(X[i], W, C, y[i]) == 0.0
  {
    if n > 0 {
      DataSumZeroIff(X, y, W, C, n - 1);
    }
  }

  /** With reg >= 0 the loss is never negative. */
  lemma LossNonnegative(X: Matrix, y: seq<int>, W: Matrix, C: nat, reg: real)
    requires IsMatrix(W, |W|, C) && ValidBatch(X, y, |W|, C) && reg >= 0.0
    ensures Loss(X, y, W, C, reg) >= 0.0
  {
    var n := |X| as real;
    var d := DataSum(X, y, W, C, |X|);
    SumSqNonnegative(W);
    var q := SumSq(W);
    assert d / n >= 0.0;
    assert (0.5 * reg) * q >= 0.0;
  }

  /** Without regularization the loss is exactly zero if and only if every
      wrong class scores at least 1 below the label's class, for every sample. */
  lemma LossZeroIffSeparated(X: Matrix, y: seq<int>, W: Matrix, C: nat)
    requires IsMatrix(W, |W|, C) && ValidBatch(X, y, |W|, C)
    ensures Loss(X, y, W, C, 0.0) == 0.0 <==> Separated(X, y, W, C)
  {
    var d := DataSum(X, y, W, C, |X|);
    assert Loss(X, y, W, C, 0.0) == d / (|X| as real);
    DataSumZeroIff(X, y, W, C, |X|);
    forall i | 0 <= i < |X|
      ensures SampleHinge(X[i], W, C, y[i]) == 0.0 <==> SampleSeparated(VecMat(X[i], W, C), y[i])
    {
      HingeZeroIff(VecMat(X[i], W, C), y[i], C);
    }
  }

  /** The regularization term is additive and known in closed form: raising
      reg raises the loss by 0.5 * (reg2 - reg1) * sum(W * W), which is a
      strict increase exactly when W has a non-zero entry. */
  lemma RegularizationIsAdditive(X: Matrix, y: seq<int>, W: Matrix, C: nat, reg1: real, reg2: real)
    requires IsMatrix(W, |W|, C) && ValidBatch(X, y, |W|, C) && reg1 < reg2
    ensures Loss(X, y, W, C, reg2) == Loss(X, y, W, C, reg1) + 0.5 * (reg2 - reg1) * SumSq(W)
    ensures Loss(X, y, W, C, reg1) < Loss(X, y, W, C, reg2) <==>
      exists f, c :: 0 <= f < |W| && 0 <= c < C && W[f][c] != 0.0
  {
    SumSqNonnegative(W);
    var q := SumSq(W);
    var dr := reg2 - reg1;
    if q > 0.0 {
      assert dr * q > 0.0;
    }
  }

  // ---------------------------------------------------------------------
  // The finite difference

  /** Raising W[f][c] by h raises every sample's score for class c by
      h * x[f] and leaves the other classes' scores alone. */
  lemma {:induction false} PerturbedDot(x: seq<real>, W: Matrix, C: nat, f: nat, c: nat, h: real, j: nat, n: nat)
    requires IsMatrix(W, |x|, C) && f < |x| && c < C && j < C && n <= |x|
    ensures DotTo(x, Perturb(W, f, c, h), j, n) ==
      DotTo(x, W, j, n) + (if j == c && f < n then h * x[f] else 0.0)
  {
    if n > 0 {
      PerturbedDot(x, W, C, f, c, h, j, n - 1);
      var P := Perturb(W, f, c, h);
      if n - 1 == f && j == c {
        assert x[f] * P[f][c] == x[f] * W[f][c] + h * x[f];
      }
    }
  }

  /** The real arithmetic of the difference of two losses a / n + r·p / 2
      and b / n + r·q / 2 whose sums of squares differ by p - q = 2·h·w + h². */
  lemma LossArithmetic(a: real, b: real, n: real, reg: real, p: real, q: real, w: real, h: real)
    requires n > 0.0
    requires p - q == 2.0 * h * w + h * h
    ensures (a / n + 0.5 * reg * p) - (b / n + 0.5 * reg * q) == (a - b) / n + h * (reg * w + 0.5 * reg * h)
  {
    var qa, qb, qd := a / n, b / n, (a - b) / n;
    assert qa * n == a && qb * n == b && qd * n == a - b;
    assert (qa - qb) * n == qd * n;
    assert 0.5 * reg * p - 0.5 * reg * q == 0.5 * reg * (p - q);
    assert 0.5 * reg * (2.0 * h * w + h * h) == h * (reg * w + 0.5 * reg * h);
  }

  /** A quotient d = e / h whose numerator is e = t + h·(k1 + k2) splits
      as t / h + k1 + k2. */
  lemma QuotientSplit(d: real, e: real, t: real, k1: real, k2: real, h: real)
    requires h != 0.0
    requires d == e / h
    requires e == t + h * (k1 + k2)
    ensures d == t / h + k1 + k2
  {
    assert (t / h + k1 + k2) * h == t + h * (k1 + k2);
  }

  /** The last step of both versions for one entry: the averaged hinge at
      W + h·e_{f,c}, plus the regularization of those raised weights, minus the
      loss at W, over h, is the finite-difference quotient. */
  lemma QuotientIsFiniteDiff(X: Matrix, y: seq<int>, W: Matrix, C: nat, reg: real, f: nat, c: nat,
                             avg: real, sq: real, loss: real)
    requires IsMatrix(W, |W|, C) && ValidBatch(X, y, |W|, C) && f < |W| && c < C
    requires avg == DataSum(X, y, Perturb(W, f, c, H), C, |X|) / (|X| as real)
    requires sq == SumSq(Perturb(W, f, c, H))
    requires loss == Loss(X, y, W, C, reg)
    ensures (avg + 0.5 * reg * sq - loss) / H == FiniteDiff(X, y, W, C, reg, f, c)
  {
  }

  /** Raising W[f][c] by h changes the loss by the change of the averaged
      hinge plus h·(reg·W[f][c] + reg·h / 2). */
  lemma LossDifference(X: Matrix, y: seq<int>, W: Matrix, C: nat, reg: real, f: nat, c: nat)
    requires IsMatrix(W, |W|, C) && ValidBatch(X, y, |W|, C) && f < |W| && c < C
    ensures Loss(X, y, Perturb(W, f, c, H), C, reg) - Loss(X, y, W, C, reg) ==
      (DataSum(X, y, Perturb(W, f, c, H), C, |X|) - DataSum(X, y, W, C, |X|)) / (|X| as real)
      + H * (reg * W[f][c] + 0.5 * reg * H)
  {
    PerturbSumSq(W, f, c, H);
    LossArithmetic(DataSum(X, y, Perturb(W, f, c, H), C, |X|), DataSum(X, y, W, C, |X|), |X| as real, reg,
                   SumSq(Perturb(W, f, c, H)), SumSq(W), W[f][c], H);
  }

  /** The regularization part of dW[f, c] is exact: dW[f, c] is the change of
      the averaged hinge divided by h, plus reg * W[f][c] + 0.5 * reg * h. */
  lemma FiniteDiffSplit(X: Matrix, y: seq<int>, W: Matrix, C: nat, reg: real, f: nat, c: nat)
    requires IsMatrix(W, |W|, C) && ValidBatch(X, y, |W|, C) && f < |W| && c < C
    ensures FiniteDiff(X, y, W, C, reg, f, c) ==
      (DataSum(X, y, Perturb(W, f, c, H), C, |X|) - DataSum(X, y, W, C, |X|)) / (|X| as real) / H
      + reg * W[f][c] + 0.5 * reg * H
  {
    LossDifference(X, y, W, C, reg, f, c);
    QuotientSplit(FiniteDiff(X, y, W, C, reg, f, c),
                  Loss(X, y, Perturb(W, f, c, H), C, reg) - Loss(X, y, W, C, reg),
                  (DataSum(X, y, Perturb(W, f, c, H), C, |X|) - DataSum(X, y, W, C, |X|)) / (|X| as real),
                  reg * W[f][c], 0.5 * reg * H, H);
  }
}
