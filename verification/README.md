# Linear SVM loss with a finite-difference gradient, in Dafny

This project models `cs231n/classifiers/linear_svm.py` from the `dl-stuff`
repository. The module holds the two functions of an image-classification
course assignment that compute the multiclass hinge (structured SVM) loss of
a linear classifier:

- `svm_loss_naive` computes the loss with loops. Then, for every weight
  `W[f, c]`, it raises the entry in place by `h = 1e-5`, recomputes the
  current sample's hinge, records `sum(W * W)` while probing the first
  sample, and puts the weight back. It returns the loss and
  `dW = (d_loss - loss) / h`.
- `svm_loss_vectorized` computes the same loss with whole-array operations.
  It subtracts 1 per sample to cancel the label's own margin. It then
  obtains the same quotients one feature row at a time:
  - W is tiled C times side by side;
  - row f is raised at the diagonal columns `k * C + k`;
  - the product with X is reshaped and transposed so that slice k holds the
    scores of `W + h·e_{f,k}`.

Entries are exact reals. The weights are a Dafny `array2<real>`, paired with
a ghost matrix value `W0` that the array holds on entry. The minibatch `X`
and labels `y` are sequence values, because neither function writes them.

The specification functions are in `HingeLoss`:

- `HingeTo`, `SampleHinge` and `DataSum` are the hinge loops;
- `Loss` is the averaged hinge plus `0.5 * reg * sum(W * W)`;
- `FiniteDiff` is `(Loss(W + h·e_{f,c}) - Loss(W)) / h`.

Both methods are proved against them. Each returns exactly `Loss` at `W0`,
and `dW[f, c]` equal to `FiniteDiff` for every entry. So over the reals the
two versions return the same loss and the same dW.

The modules are:

- `Matrices` (`matrices.dfy`): NumPy's `dot`, `sum` along an axis, `W * W`,
  `tile`, row-major `reshape`, `transpose([1, 0, 2])` and fancy-index
  `+=`, as explicit index functions.
- `HingeLoss` (`hinge_loss.dfy`): the specification functions and their
  properties.
- `ArrayOps` (`array_ops.dfy`): the elementwise array updates and
  fancy-index reads and writes.
- `NaiveSvm` (`naive_svm.dfy`) and `VectorizedSvm` (`vectorized_svm.dfy`):
  the two functions.

Each Python function is split into several methods, so that each proof
stays small:

| source lines | methods |
|---|---|
| 33-66 | `ProbeBatch`, `VisitSample`, `ProbeSample`, `ProbeEntry`, `AccumulateHinge` |
| 117-144 | `ProbeRows`, `ProbeRow` |
| 76 | `DivideEntries` |
| 77-79 and 149-151 | `RegularizedQuotients` |

## Model

| member | source | states |
|---|---|---|
| Matrices.DotTo | dl-stuff/assignment1/cs231n/classifiers/linear_svm.py:35 | `x.dot(B)[j]` over the first n features: the sum of `x[d] * B[d][j]` for d < n, added left to right; no contract of its own, used through `PerturbedDot` and `DotColumnsAgree` |
| Matrices.Sum | dl-stuff/assignment1/cs231n/classifiers/linear_svm.py:114 | `np.sum` of a vector: its entries added left to right; no contract of its own, its additivity is `SumToAdd` |
| Matrices.RowTotals | dl-stuff/assignment1/cs231n/classifiers/linear_svm.py:135 | `np.sum(m, axis=1)`: one total per row, the total of that row |
| Matrices.ColumnTotals | dl-stuff/assignment1/cs231n/classifiers/linear_svm.py:140 | `np.sum(m, axis=0)`: one total per column, the total of that column |
| Matrices.SquareEntries | dl-stuff/assignment1/cs231n/classifiers/linear_svm.py:74 | `W * W`: W's shape, every entry squared |
| Matrices.SumSq | dl-stuff/assignment1/cs231n/classifiers/linear_svm.py:64 | `np.sum(W * W)`, the squares of every entry added row by row; no contract of its own, its properties are `SumSqIsSumAll`, `SumSqNonnegative` and `PerturbSumSq` |
| Matrices.VecMat | dl-stuff/assignment1/cs231n/classifiers/linear_svm.py:35 | `X[i].dot(W)` has one score per class |
| Matrices.MatMul | dl-stuff/assignment1/cs231n/classifiers/linear_svm.py:110 | `X.dot(W)` has one row per sample and one column per class |
| Matrices.SumSwap | dl-stuff/assignment1/cs231n/classifiers/linear_svm.py:140 | summing a matrix down its columns first and then across gives the same total as summing its rows first |
| Matrices.SumSqIsSumAll | dl-stuff/assignment1/cs231n/classifiers/linear_svm.py:74 | the sum of squares used throughout equals `np.sum(W * W)`: square every entry, total each row, total the rows |
| Matrices.SumSqNonnegative | dl-stuff/assignment1/cs231n/classifiers/linear_svm.py:74 | `sum(W * W)` is never negative, and it is zero exactly when every entry of W is zero |
| Matrices.Perturb | dl-stuff/assignment1/cs231n/classifiers/linear_svm.py:48-49 | `W + h·e_{f,c}` has W's shape, entry (f, c) raised by h, and every other entry unchanged |
| Matrices.PerturbSumSq | dl-stuff/assignment1/cs231n/classifiers/linear_svm.py:49-64 | raising entry w by h raises `sum(W * W)` by exactly 2·h·w + h² |
| Matrices.Tile | dl-stuff/assignment1/cs231n/classifiers/linear_svm.py:122 | `np.tile(W, [1, C])` has D rows and C·C columns |
| Matrices.TileAt | dl-stuff/assignment1/cs231n/classifiers/linear_svm.py:122 | column j of copy k of the tile is column j of W |
| Matrices.Reshape3 | dl-stuff/assignment1/cs231n/classifiers/linear_svm.py:131 | `reshape(N, C, C)` of an N × C·C matrix has shape (N, C, C) |
| Matrices.Transpose102 | dl-stuff/assignment1/cs231n/classifiers/linear_svm.py:131 | `transpose([1, 0, 2])` swaps the first two axes of the shape |
| Matrices.AddAt | dl-stuff/assignment1/cs231n/classifiers/linear_svm.py:127 | `m[f, idx] += h` raises each listed entry of row f by h, once even if listed twice, and leaves every other entry unchanged |
| HingeLoss.HingeTo | dl-stuff/assignment1/cs231n/classifiers/linear_svm.py:37-44 | a sample's hinge over any prefix of the classes is never negative |
| HingeLoss.DataSum | dl-stuff/assignment1/cs231n/classifiers/linear_svm.py:33-44 | the hinge summed over any prefix of the samples is never negative |
| HingeLoss.Rectify | dl-stuff/assignment1/cs231n/classifiers/linear_svm.py:42-44 | a class adds its margin when the margin is strictly positive and nothing otherwise, the value of `np.maximum(margin, 0)`; no contract of its own, used through `HingeZeroIff` and `RectifiedRowSum` |
| HingeLoss.SampleHinge | dl-stuff/assignment1/cs231n/classifiers/linear_svm.py:35-44 | the hinge of one sample: its scores `X[i].dot(W)` fed to the class loop; no contract of its own, its properties are those of `HingeTo` |
| HingeLoss.Loss | dl-stuff/assignment1/cs231n/classifiers/linear_svm.py:71-74 | the returned loss: the summed hinge over N plus `0.5 * reg * np.sum(W * W)`; no contract of its own, its properties are `LossNonnegative`, `LossZeroIffSeparated` and `RegularizationIsAdditive` |
| HingeLoss.FiniteDiff | dl-stuff/assignment1/cs231n/classifiers/linear_svm.py:79 | what every `dW[f, c]` is: the loss at `W + h·e_{f,c}` minus the loss at W, over h; no contract of its own, split into its hinge and regularization parts by `FiniteDiffSplit` |
| HingeLoss.HingeZeroIff | dl-stuff/assignment1/cs231n/classifiers/linear_svm.py:38-44 | a sample's hinge is zero if and only if no wrong class has a strictly positive margin |
| HingeLoss.HingeCoversMargin | dl-stuff/assignment1/cs231n/classifiers/linear_svm.py:42-44 | a sample's hinge is at least the margin `s[j] - s[y] + 1` of every wrong class j |
| HingeLoss.DataSumZeroIff | dl-stuff/assignment1/cs231n/classifiers/linear_svm.py:33-44 | the summed hinge is zero if and only if every sample's hinge is zero |
| HingeLoss.LossNonnegative | dl-stuff/assignment1/cs231n/classifiers/linear_svm.py:71-74 | with `reg >= 0` the loss is never negative |
| HingeLoss.LossZeroIffSeparated | dl-stuff/assignment1/cs231n/classifiers/linear_svm.py:42-74 | with `reg = 0`, the loss is zero if and only if every wrong class scores at least 1 below the label's class for every sample |
| HingeLoss.RegularizationIsAdditive | dl-stuff/assignment1/cs231n/classifiers/linear_svm.py:74 | raising reg from reg1 to reg2 adds exactly `0.5 * (reg2 - reg1) * sum(W * W)` to the loss; this is a strict increase if and only if W has a non-zero entry |
| HingeLoss.PerturbedDot | dl-stuff/assignment1/cs231n/classifiers/linear_svm.py:49-51 | raising `W[f, c]` by h raises a sample's score for class c by `h * x[f]`; all other scores are unchanged |
| HingeLoss.QuotientIsFiniteDiff | dl-stuff/assignment1/cs231n/classifiers/linear_svm.py:77-79 | glue for `RegularizedQuotients`, not a property of its own: it unfolds `FiniteDiff` and `Loss` for the values that entry (f, c) holds after lines 77-79 |
| HingeLoss.LossDifference | dl-stuff/assignment1/cs231n/classifiers/linear_svm.py:71-77 | raising `W[f, c]` by h changes the loss by the change of the averaged hinge plus exactly h·(reg·W[f, c] + reg·h / 2) |
| HingeLoss.FiniteDiffSplit | dl-stuff/assignment1/cs231n/classifiers/linear_svm.py:74-79 | `dW[f, c]` is the change of the averaged hinge over h, plus exactly `reg * W[f, c] + 0.5 * reg * h` |
| ArrayOps.DivideEntries | dl-stuff/assignment1/cs231n/classifiers/linear_svm.py:76 | `d_loss /= N` divides every entry by N and changes nothing else |
| ArrayOps.AddRegularization | dl-stuff/assignment1/cs231n/classifiers/linear_svm.py:77 | `d_loss += 0.5 * reg * d_reg` adds the scaled entry of d_reg to each entry |
| ArrayOps.DifferenceQuotients | dl-stuff/assignment1/cs231n/classifiers/linear_svm.py:79 | `(d_loss - loss) / h` is a fresh array of d_loss's shape, holding each entry's quotient |
| ArrayOps.RegularizedQuotients | dl-stuff/assignment1/cs231n/classifiers/linear_svm.py:77-79 | given averaged probed hinges and probed regularizations, `d_loss` afterwards holds `Loss` at `W + h·e_{f,c}` in every entry (f, c), and the last line produces `FiniteDiff` in every entry of a fresh D × C array |
| ArrayOps.AddAtIndices | dl-stuff/assignment1/cs231n/classifiers/linear_svm.py:127 | the in-place `a[f, idx] += h` leaves the array holding `AddAt` of its old contents |
| ArrayOps.EntriesAt | dl-stuff/assignment1/cs231n/classifiers/linear_svm.py:126 | `a[f, idx]` returns the listed entries of row f, in order |
| ArrayOps.StoreAtIndices | dl-stuff/assignment1/cs231n/classifiers/linear_svm.py:144 | `a[f, idx] = v` writes v[k] at column idx[k] of row f; every other entry is unchanged |
| NaiveSvm.AccumulateHinge | dl-stuff/assignment1/cs231n/classifiers/linear_svm.py:37-44 | the loop over classes adds exactly the sample's hinge to the running total |
| NaiveSvm.ProbeEntry | dl-stuff/assignment1/cs231n/classifiers/linear_svm.py:48-66 | probing entry (f, c) adds the sample's hinge at `W0 + h·e_{f,c}` to `d_loss[f, c]` and, for the first sample, sets `d_reg[f, c]` to `sum` of the squared raised weights; W holds W0 again afterwards, and no other entry of d_loss or d_reg changes |
| NaiveSvm.ProbeSample | dl-stuff/assignment1/cs231n/classifiers/linear_svm.py:46-66 | the loops over f and c apply `ProbeEntry` to every entry; W holds W0 again afterwards |
| NaiveSvm.VisitSample | dl-stuff/assignment1/cs231n/classifiers/linear_svm.py:33-66 | one pass of the sample loop extends the running hinge and every running `d_loss` entry from samples 0..i-1 to samples 0..i; after it, every `d_reg` entry is recorded |
| NaiveSvm.ProbeBatch | dl-stuff/assignment1/cs231n/classifiers/linear_svm.py:33-66 | after the sample loop: the hinge is the summed hinge at W0; `d_loss[f, c]` is the summed hinge at `W0 + h·e_{f,c}`; `d_reg[f, c]` is `sum` of its squares; W holds W0 |
| NaiveSvm.SvmLossNaive | dl-stuff/assignment1/cs231n/classifiers/linear_svm.py:4-92 | the returned loss is `Loss` at W0; dW has W's shape and holds `FiniteDiff` in every entry; W holds W0 on return |
| VectorizedSvm.CorrectScores | dl-stuff/assignment1/cs231n/classifiers/linear_svm.py:111 | `scores[np.arange(N), y]` has one entry per sample |
| VectorizedSvm.RectifiedMargins | dl-stuff/assignment1/cs231n/classifiers/linear_svm.py:112-113 | the rectified margins have the shape of the scores |
| VectorizedSvm.MinusOne | dl-stuff/assignment1/cs231n/classifiers/linear_svm.py:114 | subtracting one keeps the vector's length |
| VectorizedSvm.BatchHinge | dl-stuff/assignment1/cs231n/classifiers/linear_svm.py:111-114 | `np.sum(np.sum(rect_margin, axis=1) - 1)` for a score matrix; no contract of its own, `BatchHingeIsDataSum` proves it equals the loops' summed hinge |
| VectorizedSvm.RectifiedRowSum | dl-stuff/assignment1/cs231n/classifiers/linear_svm.py:112-114 | a sample's rectified margins, summed over all classes, are its hinge plus exactly 1 for the label's own class |
| VectorizedSvm.SumToIsDataSum | dl-stuff/assignment1/cs231n/classifiers/linear_svm.py:114 | adding per-sample hinges over the samples gives the loops' running sum |
| VectorizedSvm.BatchHingeIsDataSum | dl-stuff/assignment1/cs231n/classifiers/linear_svm.py:110-114 | the whole-array `sum(rowsum - 1)` of `X.dot(W)` equals the summed hinge of the naive loops |
| VectorizedSvm.AveragedHinge | dl-stuff/assignment1/cs231n/classifiers/linear_svm.py:110-114 | the base loss before regularization is the loops' summed hinge over N |
| VectorizedSvm.DiagonalIndices | dl-stuff/assignment1/cs231n/classifiers/linear_svm.py:120 | `cidx` has C entries |
| VectorizedSvm.DiagonalLayout | dl-stuff/assignment1/cs231n/classifiers/linear_svm.py:120 | `cidx[k]` lies inside the tiled row, in copy k, at column k of that copy |
| VectorizedSvm.DiagonalMember | dl-stuff/assignment1/cs231n/classifiers/linear_svm.py:120 | a tiled column q is listed in cidx if and only if its copy `q / C` equals its column within the copy, `q % C` |
| VectorizedSvm.ProbedTile | dl-stuff/assignment1/cs231n/classifiers/linear_svm.py:122-127 | the raised tile has D rows and C·C columns |
| VectorizedSvm.ProbedTileAt | dl-stuff/assignment1/cs231n/classifiers/linear_svm.py:122-127 | column j of copy k of the raised tile is column j of `W + h·e_{f,k}` |
| VectorizedSvm.ProbedColumn | dl-stuff/assignment1/cs231n/classifiers/linear_svm.py:122-127 | the same, for every row at once |
| VectorizedSvm.ProbedWeights | dl-stuff/assignment1/cs231n/classifiers/linear_svm.py:138 | slice k of `replicated_W.reshape(D, C, C).transpose([1, 0, 2])` is `W + h·e_{f,k}` |
| VectorizedSvm.ProbedScoreAt | dl-stuff/assignment1/cs231n/classifiers/linear_svm.py:129 | column `k * C + j` of `X.dot(replicated_W)` is column j of `X.dot(W + h·e_{f,k})` |
| VectorizedSvm.ProbedScores | dl-stuff/assignment1/cs231n/classifiers/linear_svm.py:129-131 | slice k of the reshaped and transposed scores is `X.dot(W + h·e_{f,k})` |
| VectorizedSvm.ProbedLossRow | dl-stuff/assignment1/cs231n/classifiers/linear_svm.py:132-135 | the row written into `d_loss[f, :]` has C entries |
| VectorizedSvm.ProbedRegRow | dl-stuff/assignment1/cs231n/classifiers/linear_svm.py:140 | `reg_arr` has C entries |
| VectorizedSvm.ColumnSquaresIsSumSq | dl-stuff/assignment1/cs231n/classifiers/linear_svm.py:140 | squaring a slice, summing down its columns and then across, is `sum(W * W)` of that slice |
| VectorizedSvm.ProbedRows | dl-stuff/assignment1/cs231n/classifiers/linear_svm.py:132-142 | entry k of the rows written for feature f is the averaged hinge at `W + h·e_{f,k}` and `sum` of the squared raised weights: the values the naive loops record for entry (f, k) |
| VectorizedSvm.TileArray | dl-stuff/assignment1/cs231n/classifiers/linear_svm.py:122 | the fresh tiled array holds `Tile(W, C, C)` |
| VectorizedSvm.ProbeRow | dl-stuff/assignment1/cs231n/classifiers/linear_svm.py:126-144 | one pass writes row f of d_loss and d_reg with the values of `ProbedRows`, leaves the other rows alone, and leaves the tiled array holding the unraised tile |
| VectorizedSvm.ProbeRows | dl-stuff/assignment1/cs231n/classifiers/linear_svm.py:117-144 | after the loop over features, every entry (f, k) of d_loss and d_reg holds the naive values |
| VectorizedSvm.SvmLossVectorized | dl-stuff/assignment1/cs231n/classifiers/linear_svm.py:96-153 | the returned loss is `Loss` at W0 and dW holds `FiniteDiff` in every entry, as for `SvmLossNaive`; W is not modified |

## Left out

- Floating point: entries are exact reals, and `h` is exactly 1e-5. The two versions' results agree exactly here; in IEEE-754 arithmetic they agree only up to rounding.
- dW is modelled only as the difference quotient the code computes. Nothing claims that it approximates the true subgradient of the hinge loss.
- Shape and label checking: the code does none, and NumPy raises on bad shapes. The model states the documented requirements as preconditions (`ValidBatch`):
  - N ≥ 1, because of the divisions by N;
  - X has D columns and y has N labels;
  - every label satisfies `0 <= y[i] < C`.
- Negative labels: Python indexing also accepts a label in `[-C, 0)`, read from the end of the scores. For such a label the naive test `j == y[i]` (line 39) never fires, so the label's own class adds a margin of 1. The vectorized `-1` (line 114) removes that margin. The two losses then differ by 1/N for each such sample. `ValidBatch` excludes these labels, so the model does not show this difference.
- Aliasing between X and W is not modelled: X and y are values.
- The initial `dW = np.zeros(W.shape)` allocations (lines 22 and 104) are not modelled, because dW is reassigned before it is read.
- The unused `shuffle` import, Python 2 `xrange`, and the TODO comment block are not modelled.
- The naive finite-difference loop (lines 54-60) has no per-sample `-1` offset. The model follows the code. The `-1` of the vectorized version (lines 114 and 135) cancels the label's own margin exactly (`RectifiedRowSum`, `BatchHingeIsDataSum`).
- `np.maximum(margin, 0)` is modelled by `Rectify`, which keeps strictly positive margins and otherwise gives 0. The value is the same.
- The three-dimensional steps of lines 132-135 and 140 (`axis=2`, `axis=1`) are modelled slice by slice (`ProbedLossRow`, `ProbedRegRow`). Each slice k goes through the same two-dimensional operations as lines 111-114 and `np.sum(W * W)`.
- ArrayOps.StoreAtIndices: it requires that a column listed twice receives the same value. NumPy would keep the last value written. `cidx` lists no column twice.
- Matrices.VecMat, Matrices.MatMul, Matrices.Tile, Matrices.Reshape3, Matrices.Transpose102, Matrices.RowTotals, Matrices.ColumnTotals, Matrices.SquareEntries: their contracts state only the result's shape. Their entries are fixed by their definitions and are used through `PerturbedDot`, `TileAt`, `ProbedWeights` and `ProbedScores`.
- VectorizedSvm.CorrectScores, VectorizedSvm.RectifiedMargins, VectorizedSvm.MinusOne, VectorizedSvm.DiagonalIndices, VectorizedSvm.ProbedTile, VectorizedSvm.ProbedLossRow, VectorizedSvm.ProbedRegRow: their contracts state only lengths and shapes. What they compute is stated by `BatchHingeIsDataSum`, `DiagonalLayout`, `DiagonalMember`, `ProbedTileAt` and `ProbedRows`.
