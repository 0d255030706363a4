# Black-box substitute training with Jacobian augmentation

This project models the adversary's data bookkeeping in the MNIST black-box
tutorial of cleverhans (`tutorials/mnist_blackbox.py`). The adversary holds a
labelled set `(X_sub, Y_sub)`. It trains a local substitute on that set, grows
the set by Jacobian-based augmentation, and labels the new half by querying
the oracle. The model covers three pieces:

- `jacobian_augmentation` (module `Augmentation`). An imperative method over
  arrays. It stacks the set on itself, then overwrites rows `2*ind` in place.
  Each new row is `X_sub[ind] + lmbda * sign(grad)`. The gradient is the
  substitute's gradient for class `Y_sub[ind]`, taken at the original input.
  The base `X_sub[ind]` is read from the array being written. So row 0 is read
  and written in the same step, and row `2i` (for `i >= 1`) builds on the final
  row `i`. Perturbations therefore pile up along chains `i, 2i, 4i, ...`, and
  odd rows are never written. `Augmented` states this layout as a function:
  its contract fixes the result uniquely (`AugmentedUnique`). The method
  `JacobianAugmentation` is proved equal to it.
- The round loop of `train_substitute` (module `SubstituteTraining`). The
  function `Round` gives the meaning of one pass of the loop body, and the
  ghost function `Rounds` applies it once per remaining round. The method
  `TrainingRound` runs one pass over arrays and is proved equal to `Round`;
  `TrainSubstitute` runs the loop and is proved equal to `Rounds`. Lemmas about
  `Rounds` prove four things. Inputs and labels stay aligned. The set doubles
  once per round except the last. Every label stays a class. The labels
  assigned so far are never overwritten. A counting instance also shows that
  training runs on every round.
- The holdout split in `main` (module `Tutorial`). It takes a prefix and a
  suffix of the test set, using Python's slice-bound rules. The module also
  has the end-to-end size scenario for the tutorial's defaults.

Modelling choices:

- Pixel values and gradient values are integers. The step `lmbda` is an
  integer `stepSize`. An input is a `Tensor`: a sequence of 784 = 28·28·1
  values, which is the shape fed to the graph at line 144.
- The substitute's parameters are an opaque type `S`. Training is an opaque
  function `(S, X, Y) -> S`. The gradient of class `c` at an input is an
  opaque function `(S, Tensor, Label) -> Tensor`. The model applies the
  element-wise sign itself (`Signum`, standing for `tf.sign`).
- The oracle is an opaque function from an input to one score per class.
  Its label is `Argmax`, which stands for `np.argmax`: the first index of the
  largest score. The seed labels use the same `Argmax` on the one-hot test
  labels.

Because the first half is never relabelled, the aliasing also reaches the
labelled set: after an augmenting round, row 0 and every even row `2i < n`
hold a perturbed input but keep the label the original row at that position
had (`PerturbedRowsKeepOldLabels`). The model keeps this behaviour.

The layout differs from one in which odd row `2i+1` is a copy of original `i`.
`np.vstack` stacks the whole set twice, so every odd row `k` holds
`X_sub_prev[k mod n]`: `X_sub_prev[k]` in the first half and
`X_sub_prev[k - n]` in the second. The model follows the code.

## Model

| member | source | states |
|---|---|---|
| `Tensors.Signum` | tutorials/mnist_blackbox.py:148 | the sign is -1, 0 or +1, positive exactly for positive values and negative exactly for negative values |
| `Tensors.Step` | tutorials/mnist_blackbox.py:151 | every value of the new point differs from the base by -λ, 0 or +λ: it moves by +λ where the gradient is positive, by -λ where it is negative, and stays put where it is zero |
| `Tensors.Argmax` | tutorials/mnist_blackbox.py:197 | the label is a valid index into the scores, its score is the largest, and no earlier index has that score (`FirstMax`: the first maximum, as `np.argmax` picks) |
| `Tensors.FirstMaxUnique` | tutorials/mnist_blackbox.py:197 | at most one index is the first maximum of a row, so `Argmax` is the only label a row of scores can get |
| `Augmentation.Stack` | tutorials/mnist_blackbox.py:136 | `vstack([s, s])` has `2·|s|` rows; row `k` is `s[k]` in the first half and `s[k - |s|]` in the second |
| `Augmentation.Augmented` | tutorials/mnist_blackbox.py:136-151 | the result has exactly `2n` rows; every odd row `k` is the stacked row `Stack(X_sub_prev)[k]`; row 0 is `X_sub_prev[0]` plus one step; for `1 ≤ i < n`, row `2i` is the final row `i` plus one step whose sign is the gradient for class `Y_sub[i]` at the original `X_sub_prev[i]` |
| `Augmentation.AugmentedUnique` | tutorials/mnist_blackbox.py:136-151 | any sequence of `2n` rows with those three properties equals `Augmented`, so the properties fix the result completely |
| `Augmentation.JacobianAugmentation` | tutorials/mnist_blackbox.py:121-154 | stacking and then overwriting rows `2*ind` in place, in index order, reading the partly written array, yields exactly `Augmented` of the input rows and labels; the input arrays are not modified (the method may modify nothing), and every label must select one of the `classes` gradients |
| `Augmentation.Drift` | tutorials/mnist_blackbox.py:151 | every value of row `k` is within `Budget(k, abs(λ))` of the same value of the stacked row it grew from, `Stack(X_sub_prev)[Root(k)]`, where `Root` follows `k, k/2, k/4, …` to an odd row or 0; the budget is 0 for odd rows, `abs(λ)` for row 0, and one more `abs(λ)` per halving step along the chain |
| `Augmentation.RowFourIsTwoSteps` | tutorials/mnist_blackbox.py:151 | when `n ≥ 3`, row 4 equals two steps applied to original row 1: first the step for input 1 (which makes row 2), then the step for input 2 |
| `Augmentation.RowFourNotOneStep` | tutorials/mnist_blackbox.py:151 | with three all-zero originals, a gradient positive everywhere and a step of 1, the first value of row 4 is 2 above that of every original, so row 4 is not within one step of any original |
| `SubstituteTraining.OracleLabels` | tutorials/mnist_blackbox.py:192-197 | one label per queried input, and each label is the first index of the largest of the oracle's scores for that input |
| `SubstituteTraining.Relabeled` | tutorials/mnist_blackbox.py:191-197 | after doubling and relabelling, the labels have `2n` entries; the first `n` are the previous labels unchanged; every entry `k` in `[n, 2n)` is the oracle's label of augmented input `k`, so nothing of the duplicated half survives |
| `SubstituteTraining.RelabeledInRange` | tutorials/mnist_blackbox.py:197 | if the previous labels are classes and the oracle gives `classes` scores, every label after relabelling is a class |
| `SubstituteTraining.DoubleAndRelabel` | tutorials/mnist_blackbox.py:191-197 | the in-place overwrite of positions `n..2n-1` of the doubled label array yields exactly `Relabeled` |
| `SubstituteTraining.Round` | tutorials/mnist_blackbox.py:178-197 | one pass of the loop body: the new parameters are the trained ones; inputs and labels stay aligned; they double on every round but the last and keep their size on the last; the labels already held stay a prefix; labels that were classes stay classes |
| `SubstituteTraining.TrainingRound` | tutorials/mnist_blackbox.py:178-197 | the loop body over arrays (train, then on a round before the last augment, double the labels and relabel the new half) yields exactly the state `Round` gives, with aligned arrays and class labels, without modifying the arrays passed in |
| `SubstituteTraining.PerturbedRowsKeepOldLabels` | tutorials/mnist_blackbox.py:136-197 | after an augmenting round, row 0 holds original 0 moved by one step and row `2i` (for `2i < n`) holds row `i` moved by one step, yet both keep the previous label at their own position, since relabelling touches only the second half |
| `SubstituteTraining.RoundsSize` | tutorials/mnist_blackbox.py:178-197 | from round `ρ` on, inputs and labels stay the same length, and the set is multiplied by `2^(R-1-ρ)` (only rounds before the last augment) |
| `SubstituteTraining.RoundsLabelsInRange` | tutorials/mnist_blackbox.py:141-197 | if the seed labels are classes, every label in every later round is a class, so `grads[Y_sub[ind]]` is always in bounds |
| `SubstituteTraining.RoundsKeepLabels` | tutorials/mnist_blackbox.py:191-197 | the labels held at round `ρ` stay a prefix of the labels after the loop: relabelling touches only the new half |
| `SubstituteTraining.RoundsTrainEveryRound` | tutorials/mnist_blackbox.py:178-184 | with a training step that counts its calls, the count after the loop grows by `R - ρ` (and by 0 when no round is left), so training happens on every round, the last one included |
| `SubstituteTraining.TrainSubstitute` | tutorials/mnist_blackbox.py:157-199 | the loop over arrays (train; if not last: augment, double labels, relabel the second half; rebind) ends in the state `Rounds` gives; it holds `|X0|·2^(R-1)` aligned rows for `R ≥ 1` (and `|X0|` for `R ≤ 0`), and only class labels |
| `Tutorial.Holdout` | tutorials/mnist_blackbox.py:219-224 | the seed and the remaining test inputs concatenate to the whole test set, and so do the label rows; each seed label is the argmax of its label row; a holdout size within range is the seed size; with Python's slice rules, a holdout past the end makes the whole test set the seed and leaves nothing, a negative holdout `-m` (with `m ≤ len`) leaves exactly the last `m` points, and one below `-len` leaves an empty seed and the whole test set |
| `Tutorial.OneHotLabels` | tutorials/mnist_blackbox.py:220 | one label per row, and each label is the first index of that row's largest entry (for a one-hot row, the position of its 1) |
| `Tutorial.SeedLabelsAreClasses` | tutorials/mnist_blackbox.py:220 | label rows of `classes` entries give seed labels that are all classes |
| `Tutorial.FinalSetSize` | tutorials/mnist_blackbox.py:178-220 | starting from the holdout seed, the final set has `holdout·2^(R-1)` aligned rows for `R ≥ 1`, and `holdout` rows when no round runs |
| `Tutorial.DefaultRun` | tutorials/mnist_blackbox.py:29-31 | with the defaults (holdout 100, 6 rounds, 10 classes) on 10000 test points, 9900 test points remain and the substitute's final set has 3200 points |
| `Tutorial.PrepareAdversary` | tutorials/mnist_blackbox.py:216-237 | the split and the substitute training of `main` give the remaining test inputs of `Holdout` and the final state of `Rounds` from the seed; all final labels are classes |

## Left out

- `setup_tutorial`, the TF session, Keras configuration and the flag definitions: configuration and global state. The hyperparameters the core reads are a `Config` value instead.
- `prep_bbox`, `substitute_model`, `model_train`, `model_eval`: network architecture and training are delegated to Keras and cleverhans code that is not part of this model. Training is the opaque `train` function, and the oracle is the opaque `oracle` function.
- `jacobian_graph`, `sess.run` and `batch_eval`: foreign TF calls. They are replaced by an uninterpreted gradient function and an uninterpreted oracle. The model does not capture the evaluation in inference mode (`learning_phase: 0`).
- `to_categorical`: the one-hot encoding only feeds the opaque training call, which receives the class labels directly.
- `fgsm` and the final accuracy evaluation: floating-point gradient math in an external library, and reporting.
- Floating-point pixel values and `lmbda = 0.2`: values are integers and the step is an integer scale, so the algebra is exact. Rounding is not modelled.
- The flags `nb_epochs`, `batch_size` and `learning_rate`: they only reach the opaque training calls.
- `nb_classes`: the source defines this flag but never passes it on; the models and the Jacobian use their default of 10 classes. The model has a single class count `classes` for the oracle's scores and the per-class gradients.
- Printing and progress messages.
- Augmentation.Drift: states a bound on how far a row has moved from its original. It does not give the exact sum of the signed steps along the chain.
