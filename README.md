# Simplified SMO trainer, modelled in Dafny

This project models the support-vector-machine trainer of the spam
classifier: the simplified Sequential Minimal Optimization (SMO) algorithm
in `SMO.py`. The model covers three parts of that file:

- the `simplifiedSMO` model record;
- the linear kernel `linear_kernel(X) = X · Xᵀ`;
- `execute_SMO`, the trainer itself.

`execute_SMO` works in three levels:

- An inner-loop **step** for example `i` does five things in order. It
  computes the residual `error[i]` and tests the KKT conditions. It takes
  a partner `j` and computes the bounds `L`/`H` and the curvature `eta`.
  It moves and clips `alphas[j]`, then makes the paired move of
  `alphas[i]`. Finally it selects the threshold `b`.
- A **pass** runs the step for every example and counts the changes
  (`num_changed_alpha`).
- The **outer loop** counts consecutive passes that change nothing. It
  stops after `max_passes` of them and then computes the weight vector
  `W = Xᵀ · (alphas ⊙ Y)`.

The project has four files:

- `kernel.dfy` (module `Kernels`): inner products, the linear kernel, its
  symmetry, and the fact that on this kernel the SMO curvature is minus a
  squared distance.
- `smo_spec.dfy` (module `SmoSpec`): the meaning of a step, a pass and a
  run, as pure functions of the training problem (`Problem`: labels,
  kernel, `C`, `tol`) and the optimisation state (`State`: multipliers,
  threshold, residual cache). It also holds the lemmas about them.
- `smo.dfy` (module `Smo`): the imperative trainer. Class
  `SimplifiedSmo` has the record's fields, with `alphas` and `error` as
  arrays that are updated in place. Its methods are `Step`, `UpdatePair`,
  `Pass` and `ExecuteSmo`. Each is proved to compute the matching
  `SmoSpec` function, so the `SmoSpec` lemmas hold for the arrays too.
- `scenario.dfy` (module `Scenario`): the two-point example worked through
  the model.

Other modelling choices:

- Training data are exact `real`s.
- Labels have type `Label`, the reals `-1` and `+1`.
- Random partner choice becomes a caller-supplied partner index per
  example and per pass.
- Line 94 can draw the index `-1`, which numpy reads as the last example.
  The model keeps this: a partner index lies in `[-1, m)` and differs
  from `i`, as after the retry loop at lines 96-97. `PartnerIndex`
  resolves `-1` to `m - 1`. When that names `i` itself, the step stops
  at the `L == H` or the `eta >= 0` test and never updates; see
  `SmoSpec.AliasedPartnerNeverUpdates`.
- The source's candidate thresholds `b1`/`b2` (lines 144-149) differ from
  Platt's rule (see "## Findings"). A `ThresholdRule` selects the form:
  `AsWritten` is the source's, `Platt` the corrected one. The step, the
  pass, the run and the class (through its `rule` field, set by the
  constructor) all take the rule. With `AsWritten` they are the trainer
  as the source writes it; with `Platt` they are the corrected trainer.
  Every lemma about the box, the labelled sum, the skips and the pass
  counter holds for both rules. `SmoSpec.PlattThresholdFitsExamples`
  holds for the corrected rule only.

Two behaviours of the code worth stating:

- The constructor sets `tol = 0`. `execute_SMO` sets `tol = 10^-3` at its
  start (line 71).
- With a single example, the draw at line 94 is `-1` or `0`. A draw of
  `-1` differs from `i = 0`, so the retry loop ends. The step then
  aliases example 0 and stops at the `L == H` or `eta >= 0` test; it
  does not spin forever.

## Model

| member | source | states |
|---|---|---|
| Kernels.LinearKernel | Python/SpamClassifier/ClassificationUsingSVM/SMO.py:39-46 | the kernel of an n-row matrix is an n×n matrix |
| Kernels.LinearKernelSymmetric | Python/SpamClassifier/ClassificationUsingSVM/SMO.py:46 | `K[i][j] == K[j][i]` for the linear kernel |
| Kernels.LinearKernelEta | Python/SpamClassifier/ClassificationUsingSVM/SMO.py:121 | on the linear kernel, `eta = 2K[i][j] − K[i][i] − K[j][j]` equals `−‖x_i − x_j‖²`, so `eta <= 0` |
| Smo.SimplifiedSmo.constructor | Python/SpamClassifier/ClassificationUsingSVM/SMO.py:16-36 | stores X, Y, C, the kernel and the threshold rule; `alphas` and `error` are fresh zero arrays of length m; `b`, `tol` and `sigma` are 0; `W` is the zero vector of the feature width |
| Smo.SimplifiedSmo.Step | Python/SpamClassifier/ClassificationUsingSVM/SMO.py:87-162 | the in-place step, with the record's threshold rule, leaves the arrays and `b` equal to `SmoSpec.StepWith` applied to the old state; it reports a change exactly when the step ends in an update |
| Smo.SimplifiedSmo.UpdatePair | Python/SpamClassifier/ClassificationUsingSVM/SMO.py:127-162 | once `eta < 0` and both residuals are cached, the in-place move, clip, restore or paired update and threshold choice leave the arrays and `b` equal to `SmoSpec.PairMove` of the old state; it reports a change exactly when the move is not negligible |
| Smo.SimplifiedSmo.Pass | Python/SpamClassifier/ClassificationUsingSVM/SMO.py:84-162 | after the `for i` loop, the arrays and `b` are `SmoSpec.Sweep` of the old state under the record's rule; the count returned is that pass's `num_changed_alpha` |
| Smo.SimplifiedSmo.ExecuteSmo | Python/SpamClassifier/ClassificationUsingSVM/SMO.py:63-174 | sets `tol = 10^-3` and runs `SmoSpec.Run` under the record's rule. It converges exactly when the counter reaches `max_passes` (for `max_passes >= 0` it equals it). On convergence the last `max_passes` passes changed nothing and `W = Xᵀ · (alphas ⊙ Y)`. Without convergence every draw was used and `W` is unchanged. The box `[0, C]` and `Σ alphas[k]·Y[k]` are preserved |
| SmoSpec.Bounds | Python/SpamClassifier/ClassificationUsingSVM/SMO.py:109-114 | when both multipliers are in `[0, C]`: `0 <= L <= alphas[j] <= H <= C`, for equal and for unequal labels |
| SmoSpec.BoundsExact | Python/SpamClassifier/ClassificationUsingSVM/SMO.py:109-114 | `L <= t <= H` exactly when `t` and the paired value `alphas[i] + Y[i]Y[j](alphas[j] − t)` both lie in `[0, C]` |
| SmoSpec.Clip | Python/SpamClassifier/ClassificationUsingSVM/SMO.py:131-132 | `min(H, ·)` then `max(L, ·)` lands in `[L, H]` when `L <= H`, and a value already in `[L, H]` is kept |
| SmoSpec.StepWith | Python/SpamClassifier/ClassificationUsingSVM/SMO.py:87-162 | a step keeps the lengths of the multiplier and residual vectors |
| SmoSpec.CandidatesBy | Python/SpamClassifier/ClassificationUsingSVM/SMO.py:144-149 | under the source's rule, whenever the two changes keep `Y[i]·alphas[i] + Y[j]·alphas[j]` (as the paired update does), the correction terms of `b1` cancel and `b1 = b + error[i]` |
| SmoSpec.Threshold | Python/SpamClassifier/ClassificationUsingSVM/SMO.py:153-160 | the chosen `b` always lies between `b1` and `b2`; it is `b1` when `0 < alphas[i] < C`, else `b2` when `0 < alphas[j] < C`, else the point equidistant from both |
| SmoSpec.StepKeepsBox | Python/SpamClassifier/ClassificationUsingSVM/SMO.py:109-140 | a step started with every multiplier in `[0, C]` ends with every multiplier in `[0, C]` |
| SmoSpec.StepKeepsLabelledSum | Python/SpamClassifier/ClassificationUsingSVM/SMO.py:140 | a step keeps `Σ alphas[k]·Y[k]` unchanged |
| SmoSpec.PairedMoveKeepsLabelledSum | Python/SpamClassifier/ClassificationUsingSVM/SMO.py:140 | moving `alphas[j]` anywhere and `alphas[i]` by the paired update keeps `Σ alphas[k]·Y[k]` |
| SmoSpec.StepSkipLeavesModel | Python/SpamClassifier/ClassificationUsingSVM/SMO.py:116-137 | a step that ends without an update (KKT satisfied, `L == H`, `eta >= 0`, or a move below `tol` that is undone) leaves `alphas` and `b` exactly as they were |
| SmoSpec.StepCachesResiduals | Python/SpamClassifier/ClassificationUsingSVM/SMO.py:88-102 | `error[i]` becomes the residual of example i. The step stops at the KKT test exactly when that residual satisfies the KKT conditions. Otherwise `error[j]` becomes the residual of the partner |
| SmoSpec.StepFrame | Python/SpamClassifier/ClassificationUsingSVM/SMO.py:88-162 | every entry of `alphas` and `error` other than i and the partner is unchanged |
| SmoSpec.StepUpdateMoves | Python/SpamClassifier/ClassificationUsingSVM/SMO.py:128-140 | in an update the partner is another example. Its new multiplier lies in `[L, H]` and moved by at least `tol`. `Y[i]·alphas[i] + Y[j]·alphas[j]` is unchanged |
| SmoSpec.AliasedPartnerNeverUpdates | Python/SpamClassifier/ClassificationUsingSVM/SMO.py:94-125 | when the drawn index `-1` names example i itself, the step stops at the KKT, `L == H` or `eta >= 0` test and never updates |
| SmoSpec.PlattCandidatesFit | Python/SpamClassifier/ClassificationUsingSVM/SMO.py:144-149 | Platt's `b1` gives residual 0 at example i after the move; Platt's `b2` gives residual 0 at the partner |
| SmoSpec.PlattThresholdFitsExamples | Python/SpamClassifier/ClassificationUsingSVM/SMO.py:144-160 | after an update with Platt's thresholds: residual 0 at i when `0 < alphas[i] < C`; else residual 0 at the partner when `0 < alphas[j] < C`; else the two residuals cancel |
| SmoSpec.AsWrittenThresholdMissesExample | Python/SpamClassifier/ClassificationUsingSVM/SMO.py:144-154 | with `b1` as the source writes it, one concrete update leaves `alphas[i]` inside `(0, C)` with `b = b1 = 1` and residual 2 at example i; the same step with Platt's thresholds gives `b = 3` and residual 0 |
| SmoSpec.Sweep | Python/SpamClassifier/ClassificationUsingSVM/SMO.py:84-162 | a pass over n examples, under either threshold rule, changes at most n of them |
| SmoSpec.SweepKeepsBox | Python/SpamClassifier/ClassificationUsingSVM/SMO.py:85-162 | a pass under either threshold rule keeps every multiplier in `[0, C]` |
| SmoSpec.SweepKeepsLabelledSum | Python/SpamClassifier/ClassificationUsingSVM/SMO.py:85-162 | a pass under either threshold rule keeps `Σ alphas[k]·Y[k]` |
| SmoSpec.CleanSweepLeavesModel | Python/SpamClassifier/ClassificationUsingSVM/SMO.py:84-167 | under either threshold rule, a pass with `num_changed_alpha == 0` leaves `alphas` and `b` as they were |
| SmoSpec.NextPasses | Python/SpamClassifier/ClassificationUsingSVM/SMO.py:164-167 | the counter grows by one exactly when the pass changed nothing, and otherwise restarts from 0 |
| SmoSpec.NextPassesExtendsStreak | Python/SpamClassifier/ClassificationUsingSVM/SMO.py:164-167 | the counter update keeps `passes` equal to the number of trailing passes that changed nothing |
| SmoSpec.CleanStreakTail | Python/SpamClassifier/ClassificationUsingSVM/SMO.py:164-167 | a streak of n means the last n passes each changed nothing |
| SmoSpec.RunTracksCleanStreak | Python/SpamClassifier/ClassificationUsingSVM/SMO.py:77-167 | under either threshold rule, the final counter of a run is the clean streak of the whole pass history |
| SmoSpec.RunStopsAtBudget | Python/SpamClassifier/ClassificationUsingSVM/SMO.py:77 | the counter never passes `max_passes`; the run stops short of it only when every pass's partner draws are used |
| SmoSpec.Run | Python/SpamClassifier/ClassificationUsingSVM/SMO.py:77-167 | a run under either threshold rule keeps the vector lengths and records at most one change count per supplied draw |
| SmoSpec.RunKeepsBox | Python/SpamClassifier/ClassificationUsingSVM/SMO.py:77-167 | a whole run under either threshold rule keeps every multiplier in `[0, C]` |
| SmoSpec.RunKeepsLabelledSum | Python/SpamClassifier/ClassificationUsingSVM/SMO.py:77-167 | a whole run under either threshold rule keeps `Σ alphas[k]·Y[k]` |
| SmoSpec.Weights | Python/SpamClassifier/ClassificationUsingSVM/SMO.py:171 | `Xᵀ · w` has the feature width, and is the zero vector when every `alphas[k]·Y[k]` is 0 |
| SmoSpec.WeightsMatchKernel | Python/SpamClassifier/ClassificationUsingSVM/SMO.py:171 | on the linear kernel, the weight vector `W = Xᵀ · (alphas ⊙ Y)` gives the same decision value as the kernel sum: residual `= W · x_c − b − Y[c]` |
| Scenario.TwoPointMidpoint | Python/SpamClassifier/ClassificationUsingSVM/SMO.py:85-171 | on `X = [[0,0],[4,4]]`, `Y = [-1, 1]`, `C = 1`, under either threshold rule: the first step sets both multipliers to 1/16 and `b = 1`, so `W = [1/4, 1/4]` and the boundary passes through `(2, 2)`; the next example then satisfies KKT |

## Left out

- `gaussian_kernel` (lines 49-60) is not modelled. It calls the `GaussianKernel` module, which is not part of this model, and it computes exponentials in floating point.
- Random partner choice (lines 94-97) is replaced by caller-supplied partner indices: one list per pass, one index per example. The retry loop's guarantee becomes the precondition `j != i`, and the distribution of the draws is not modelled.
- Console progress output (lines 75-82, 168, 173) is left out. It has no effect on the model.
- numpy floating point is replaced by exact `real` arithmetic, so rounding is not modelled. `asscalar`, `c_` and transpositions only change representation, and the model has none of them.
- Termination of the outer `while` loop is not modelled. The loop has no variant, so the supply of partner lists is its fuel. If the supply runs out before `max_passes` clean passes, `ExecuteSmo` returns unconverged and does not compute `W`, a case the source cannot reach.
- `sigma` is stored and initialised, but nothing in the core reads it.
- The model takes no numpy matrix shapes. The constructor requires X to be rectangular with one row per label, and the kernel to be m×m. The feature width of a matrix with no rows is taken as 0.
- Labels are restricted to -1 and +1, which the trainer's derivation assumes; the source does not check them.
- The `max_passes` counter is outside the class: `ExecuteSmo` takes it as a parameter, as the source does.
- The constructor takes one argument the source does not have: the threshold rule. `AsWritten` gives the source's trainer; `Platt` exists only to state the correction in "## Findings".
- The per-pass history of change counts exists only in the proofs. The source keeps only the counter.
- Kernels.LinearKernelEta: proves `eta <= 0`, but not the sharper fact that `eta == 0` exactly when the two examples coincide.
- SmoSpec.StepUpdateMoves: states `L <= alphas[j] <= H` only when `L <= H`. Whenever the multipliers start in `[0, C]`, `SmoSpec.Bounds` supplies that, and `SmoSpec.StepKeepsBox` states the box property outright.

## Findings

| source | as written | input that shows it | evidently intended | confidence | as-written member | corrected member |
|---|---|---|---|---|---|---|
| Python/SpamClassifier/ClassificationUsingSVM/SMO.py:144-149 | `b1 = b + E_i − Y_i·Δα_i·K_ij − Y_j·Δα_j·K_ij` and `b2 = b + E_i − Y_i·Δα_i·K_ij − Y_j·Δα_j·K_jj`. The two correction terms of `b1` cancel (`Y_iΔα_i = −Y_jΔα_j`), so `b1 = b + E_i`. `b2` uses `E_i` where Platt uses `E_j`. | `X = [[1],[2]]` with the linear kernel, `Y = [-1, 1]`, `C = 10`, all multipliers 0, `b = 0`, step `(i, j) = (0, 1)`: the multipliers become `[2, 2]` and `b = b1 = 1`, so example 0, strictly inside the box, has residual 2 where Platt's `b1 = 3` gives 0 | Platt's `b1 = b + E_i + Y_i·Δα_i·K_ii + Y_j·Δα_j·K_ij` and `b2 = b + E_j + Y_i·Δα_i·K_ij + Y_j·Δα_j·K_jj` (with the residual defined as `u − y` and the decision value as `u = Σ α_k y_k K − b`), so that the chosen example meets its KKT condition exactly | not executed | SmoSpec.AsWrittenThresholdMissesExample | SmoSpec.PlattThresholdFitsExamples |
