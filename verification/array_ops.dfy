/** The elementwise NumPy updates both versions apply to their D x C
    accumulators once the probing loop is over, and the fancy-index reads
    and writes on one row of an array. */
module ArrayOps {
  import opened Matrices
  import opened HingeLoss

  /** `a /= n`: every entry divided by n. */
  method DivideEntries(a: array2<real>, n: nat)
    requires n > 0
    modifies a
    ensures forall f, c :: 0 <= f < a.Length0 && 0 <= c < a.Length1 ==>
      a[f, c] == old(a[f, c]) / (n as real)
  {
    forall f, c | 0 <= f < a.Length0 && 0 <= c < a.Length1 {
      a[f, c] := a[f, c] / (n as real);
    }
  }

  /** `a += 0.5 * reg * b`: the regularization recorded in b added entrywise. */
  method AddRegularization(a: array2<real>, b: array2<real>, reg: real)
    requires a != b && b.Length0 == a.Length0 && b.Length1 == a.Length1
    modifies a
    ensures forall f, c :: 0 <= f < a.Length0 && 0 <= c < a.Length1 ==>
      a[f, c] == old(a[f, c]) + 0.5 * reg * b[f, c]
  {
    forall f, c | 0 <= f < a.Length0 && 0 <= c < a.Length1 {
      a[f, c] := a[f, c] + 0.5 * reg * b[f, c];
    }
  }

  /** `(a - loss) / h` into a fresh array. */
  method DifferenceQuotients(a: array2<real>, loss: real, h: real) returns (q: array2<real>)
    requires h != 0.0
    ensures fresh(q) && q.Length0 == a.Length0 && q.Length1 == a.Length1
    ensures forall f, c :: 0 <= f < a.Length0 && 0 <= c < a.Length1 ==>
      q[f, c] == (a[f, c] - loss) / h
  {
    q := new real[a.Length0, a.Length1];
    forall f, c | 0 <= f < a.Length0 && 0 <= c < a.Length1 {
      q[f, c] := (a[f, c] - loss) / h;
    }
  }

  /** `d_loss += 0.5 * reg * d_reg; dW = (d_loss - loss) / h`, the last
      lines of both versions: when entry (f, c) of d_loss holds the averaged
      hinge at W + h·e_{f,c}, entry (f, c) of d_reg the sum(W * W) of those
      raised weights, and loss the loss at W, d_loss ends up holding the loss
      at W + h·e_{f,c} and the result is the finite-difference quotient of
      every entry. */
  method RegularizedQuotients(X: Matrix, y: seq<int>, ghost W: Matrix, reg: real, loss: real,
                              dLoss: array2<real>, dReg: array2<real>)
    returns (dW: array2<real>)
    requires IsMatrix(W, dLoss.Length0, dLoss.Length1) && ValidBatch(X, y, dLoss.Length0, dLoss.Length1)
    requires dLoss != dReg && dReg.Length0 == dLoss.Length0 && dReg.Length1 == dLoss.Length1
    requires loss == Loss(X, y, W, dLoss.Length1, reg)
    requires forall f, c :: 0 <= f < dLoss.Length0 && 0 <= c < dLoss.Length1 ==>
      dLoss[f, c] == DataSum(X, y, Perturb(W, f, c, H), dLoss.Length1, |X|) / (|X| as real) &&
      dReg[f, c] == SumSq(Perturb(W, f, c, H))
    modifies dLoss
    ensures forall f, c :: 0 <= f < dLoss.Length0 && 0 <= c < dLoss.Length1 ==>
      dLoss[f, c] == Loss(X, y, Perturb(W, f, c, H), dLoss.Length1, reg)
    ensures fresh(dW) && dW.Length0 == dLoss.Length0 && dW.Length1 == dLoss.Length1
    ensures forall f, c :: 0 <= f < dLoss.Length0 && 0 <= c < dLoss.Length1 ==>
      dW[f, c] == FiniteDiff(X, y, W, dLoss.Length1, reg, f, c)
  {
    label Averaged:
    AddRegularization(dLoss, dReg, reg);
    dW := DifferenceQuotients(dLoss, loss, H);
    forall f, c | 0 <= f < dLoss.Length0 && 0 <= c < dLoss.Length1
      ensures dW[f, c] == FiniteDiff(X, y, W, dLoss.Length1, reg, f, c)
    {
      QuotientIsFiniteDiff(X, y, W, dLoss.Length1, reg, f, c, old@Averaged(dLoss[f, c]), dReg[f, c], loss);
    }
  }

  /** `a[f, idx] += h` on an array holding m: afterwards it holds m with the
      listed entries of row f raised by h, each once however often it is
      listed. */
  method AddAtIndices(a: array2<real>, ghost m: Matrix, f: nat, idx: seq<nat>, h: real)
    requires Holds(a, m) && f < a.Length0
    requires forall k :: 0 <= k < |idx| ==> idx[k] < a.Length1
    modifies a
    ensures Holds(a, AddAt(m, f, idx, h))
  {
    forall q | 0 <= q < a.Length1 && q in idx {
      a[f, q] := a[f, q] + h;
    }
  }

  /** `a[f, idx]`: the entries of row f at the listed columns. */
  method EntriesAt(a: array2<real>, f: nat, idx: seq<nat>) returns (v: seq<real>)
    requires f < a.Length0
    requires forall k :: 0 <= k < |idx| ==> idx[k] < a.Length1
    ensures |v| == |idx| && forall k :: 0 <= k < |idx| ==> v[k] == a[f, idx[k]]
  {
    v := seq(|idx|, k requires 0 <= k < |idx| reads a => a[f, idx[k]]);
  }

  /** `a[f, idx] = v`: entry idx[k] of row f becomes v[k]; nothing else
      changes. A column listed twice must receive the same value both times. */
  method StoreAtIndices(a: array2<real>, f: nat, idx: seq<nat>, v: seq<real>)
    requires f < a.Length0 && |v| == |idx|
    requires forall k :: 0 <= k < |idx| ==> idx[k] < a.Length1
    requires forall k, l :: 0 <= k < |idx| && 0 <= l < |idx| && idx[k] == idx[l] ==> v[k] == v[l]
    modifies a
    ensures forall k :: 0 <= k < |idx| ==> a[f, idx[k]] == v[k]
    ensures forall d, q :: 0 <= d < a.Length0 && 0 <= q < a.Length1 && (d != f || q !in idx) ==>
      a[d, q] == old(a[d, q])
  {
    forall k | 0 <= k < |idx| {
      a[f, idx[k]] := v[k];
    }
  }
}
