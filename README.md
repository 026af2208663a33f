# fairlearn core, modelled in Dafny

This project models five parts of fairlearn, a Python library for
assessing and improving the fairness of classifiers, and proves properties
of each:

- **Exponentiated gradient** (`ExponentiatedGradient.fit` and
  `_format_results`). This is the reduction's main loop. `theta` is the
  dual vector and the lambda vectors are the bounded multipliers.
  `Qsum` counts the best responses. Each iteration picks the
  exponentiated-gradient candidate or the linear-programming one. The
  loop stops once the gap falls below `nu`, and a regret test shrinks the
  learning rate `eta`. At the end the best iteration is selected and its
  weights are padded. The `_Lagrangian` object is an oracle
  (`ExpGradient.Lagrangian`). Its answers depend only on the lambda
  vectors it has been given so far. `np.exp` is any positive function.
- **Grid search** (`GridSearchClassification`). This covers:
  - the constructor's metric check;
  - `fit`: the label check, the protected attribute's group shares, the
    default multiplier grid, and the per-multiplier weights, relabels and
    absolute sample weights;
  - `_select_best_model`, which scores every model and picks the first
    maximum.

  The learner and the error and disparity moments are abstract functions.
- **Post-processing geometry** (`_cvxpy_utils.py`). This covers:
  - the line through two ROC points;
  - the half-plane of points to the left of a directed edge;
  - the constraints that keep a point inside a counter-clockwise polygon;
  - the argument checks and the fairness-constraint dispatch that open
    `compute_fair_optimum`.
- **True positive rate** (`true_positive_rate`). This is the counting loop
  over the zipped rows and the overall and per-group ratios.
- **`_ensure_1d_ndarray`**. An array is modelled as its shape and its
  elements in row-major order.

Modules: `Numeric` holds sums over sequences and maps, numpy's `unique`,
`min` and the extended reals. `Wrappers` holds `Option` and `Result`.
`ExpGradient`, `GridSearch`, `CvxpyUtils`, `TruePositiveRate` and
`InputManipulations` hold the five parts.

The Python code's exceptions are the `Err` cases of a `Result`. Floating
point is exact real arithmetic. `np.isclose` is exact equality.

The code and its own documentation disagree in two places:

- The `_ensure_1d_ndarray` docstring says an array of shape `(2, 2)` is
  rejected. The code returns it unchanged, and the model follows the code
  (`InputManipulations.NoUnitAxisUnchanged`).
- In `compute_fair_optimum`, a comment calls the "not supported" branch of
  the rate dispatch unreachable, because the name was validated before.
  `true_negative_rate_parity` passes that validation and reaches the
  branch all the same (see "## Findings"). Here the main model follows
  the evidently intended dispatch (`CvxpyUtils.RateIndex`,
  `CvxpyUtils.FairnessConstraints`, `CvxpyUtils.FairOptimumConstraints`).
  `CvxpyUtils.RateIndexAsWritten`,
  `CvxpyUtils.FairnessConstraintsAsWritten` and
  `CvxpyUtils.TrueNegativeRateParityFails` keep the code as written.

## Model

| member | source | states |
|---|---|---|
| ExpGradient.LambdaVec | fairlearn/reductions/_exponentiated_gradient/exponentiated_gradient.py:137-154 | `B * exp(theta) / (1 + sum exp(theta))` has one entry per constraint; for `B > 0` the entries are non-negative and sum to strictly less than `B` |
| ExpGradient.ColumnMeanInDualBall | fairlearn/reductions/_exponentiated_gradient/exponentiated_gradient.py:155-156 | the componentwise mean of lambda vectors that are non-negative and sum to less than `B` is again non-negative and sums to less than `B` |
| ExpGradient.SumByColumns | fairlearn/reductions/_exponentiated_gradient/exponentiated_gradient.py:155-156 | summing the table of lambda vectors by columns gives the same total as summing it by rows |
| ExpGradient.CountsAppend | fairlearn/reductions/_exponentiated_gradient/exponentiated_gradient.py:170-172 | one more best response `h` adds exactly 1 to its count, creates it at 0 first if absent, and leaves every other count unchanged |
| ExpGradient.CountsTotal | fairlearn/reductions/_exponentiated_gradient/exponentiated_gradient.py:170-172 | the counts of best responses add up to the number of iterations |
| ExpGradient.EmpiricalIsDistribution | fairlearn/reductions/_exponentiated_gradient/exponentiated_gradient.py:174 | `Q_EG = Qsum / Qsum.sum()` is a probability vector: its keys are exactly the best responses seen, every weight is positive and the weights sum to 1 |
| ExpGradient.SumValues | fairlearn/reductions/_exponentiated_gradient/exponentiated_gradient.py:174 | `Qsum.sum()` computed by a loop over the keys equals the sum of the map's values |
| ExpGradient.Normalize | fairlearn/reductions/_exponentiated_gradient/exponentiated_gradient.py:174 | dividing the counts by their total gives each best response's share of the iterations |
| ExpGradient.Choose | fairlearn/reductions/_exponentiated_gradient/exponentiated_gradient.py:179-193 | the EG candidate is kept if and only if `gap_EG < gap_LP` (an infinite `gap_LP` always loses), otherwise the LP candidate; the recorded gap never exceeds `gap_EG` |
| ExpGradient.RegretStep | fairlearn/reductions/_exponentiated_gradient/exponentiated_gradient.py:206-213 | `eta` changes only by the factor `_SHRINK_ETA`; it changes exactly at a checkpoint `t >= last_regret_checked * _REGRET_CHECK_INCREASE_T` where `min(gaps_EG) > last_gap * _SHRINK_REGRET` holds in floating point (an infinite `last_gap` is exceeded only when `_SHRINK_REGRET < 0`); so for a non-negative factor the first checkpoint never shrinks `eta`, and for a positive one a shrink needs a finite `last_gap`; a checkpoint records `t` and `min(gaps_EG)`; nothing changes between checkpoints; with valid constants `eta` stays positive and never grows |
| ExpGradient.ThetaStep | fairlearn/reductions/_exponentiated_gradient/exponentiated_gradient.py:216 | with a positive `eta`, the dual variable of a constraint whose `gamma` exceeds `eps` goes up, of one below `eps` goes down, and of one equal to `eps` stays |
| ExpGradient.RegretGapNonIncreasing | fairlearn/reductions/_exponentiated_gradient/exponentiated_gradient.py:207-213 | `last_gap` never increases and always equals the smallest EG gap of some prefix of the iterations |
| ExpGradient.Iterate | fairlearn/reductions/_exponentiated_gradient/exponentiated_gradient.py:150-216 | one pass of the loop body: the new round extends a valid trace; the lists and `Qsum` grow by that round's entries; it breaks exactly when `gaps[t] < nu and t >= _MIN_T`; otherwise it updates the regret schedule and then `theta` |
| ExpGradient.RunLength | fairlearn/reductions/_exponentiated_gradient/exponentiated_gradient.py:150-204 | the break test `t >= _MIN_T and gaps[t] < nu` means a run has all `T` iterations unless its last iteration is at or after `_MIN_T` with a gap below `nu`, and no earlier iteration from `_MIN_T` on has a gap below `nu` |
| ExpGradient.Game | fairlearn/reductions/_exponentiated_gradient/exponentiated_gradient.py:141-216 | the loop runs from 1 to `T` iterations and every round follows from the ones before it; it never stops before the last round; it stops early only on the break test; `theta` and `eta` after the loop are those of the last round on a break and one more update otherwise |
| ExpGradient.TraceInDualBall | fairlearn/reductions/_exponentiated_gradient/exponentiated_gradient.py:137-156 | for `eps > 0`, every lambda vector and every `lambda_EG` of a run lies in the dual ball of radius `B = 1/eps` |
| ExpGradient.TraceEmpirical | fairlearn/reductions/_exponentiated_gradient/exponentiated_gradient.py:170-174 | every `Q_EG` of a run is a probability vector over the best responses returned so far |
| ExpGradient.TraceFirstIsEG | fairlearn/reductions/_exponentiated_gradient/exponentiated_gradient.py:179-193 | the first iteration always records the EG candidate, because `gap_LP` is infinite there |
| ExpGradient.TraceWithoutLp | fairlearn/reductions/_exponentiated_gradient/exponentiated_gradient.py:179-193 | without the LP step every recorded `Q` is `Q_EG`, so it is a probability vector |
| ExpGradient.TraceEta | fairlearn/reductions/_exponentiated_gradient/exponentiated_gradient.py:162-213 | with `eps > 0`, `eta_mul > 0` and valid constants (`0 < _SHRINK_ETA <= 1`, a positive `_SHRINK_REGRET`, non-negative `_PRECISION` and regret-check start, and an increase factor of at least 1), `eta` is positive in every round and never grows from one round to the next |
| ExpGradient.TraceLastGap | fairlearn/reductions/_exponentiated_gradient/exponentiated_gradient.py:149-213 | at the start of every iteration `last_gap` is infinite or the smallest EG gap of some prefix of the earlier iterations |
| ExpGradient.TraceTheta | fairlearn/reductions/_exponentiated_gradient/exponentiated_gradient.py:141-216 | entry `j` of `theta` in round `i` is the sum of the steps `eta * (gamma_h[j] - eps)` of all earlier iterations, each with the `eta` that iteration updated to |
| ExpGradient.BestT | fairlearn/reductions/_exponentiated_gradient/exponentiated_gradient.py:233-235 | `best_t` is an iteration whose gap lies within `_PRECISION` of the smallest gap, and every later gap lies above that bound, so it is the last such iteration |
| ExpGradient.LastAtMost | fairlearn/reductions/_exponentiated_gradient/exponentiated_gradient.py:234-235 | the index found has an entry at most the bound, and every later entry is above it |
| ExpGradient.PadWeights | fairlearn/reductions/_exponentiated_gradient/exponentiated_gradient.py:236-240 | the padded weights keep every weight of `Qs[best_t]`; they give 0 to every other classifier index and to nothing else; their total is unchanged |
| ExpGradient.FormatResults | fairlearn/reductions/_exponentiated_gradient/exponentiated_gradient.py:232-245 | the result holds `best_t`, `best_gap = gaps[best_t]`, the padded weights of `Qs[best_t]` with the same total, and `last_t = len(Qs) - 1` |
| ExpGradient.ConvergedBestGapBelowNu | fairlearn/reductions/_exponentiated_gradient/exponentiated_gradient.py:232-243 | when the last gap is below `nu`, so is the gap at `best_t` |
| ExpGradient.ResultBounds | fairlearn/reductions/_exponentiated_gradient/exponentiated_gradient.py:42-57 | the formatted result always has `last_t < T`, and `best_gap < nu` when the last gap is below `nu` |
| ExpGradient.Run | fairlearn/reductions/_exponentiated_gradient/exponentiated_gradient.py:150-218 | the loop followed by `_format_results`: a valid trace of 1 to `T` rounds that stops only on the break test, formatted as `_format_results` does, with `last_t < T` and `best_gap < nu` when the last gap is below `nu` |
| ExpGradient.Fit | fairlearn/reductions/_exponentiated_gradient/exponentiated_gradient.py:137-218 | `eps == 0` fails with a division by zero; `T < 1` fails because `eta_min` is never bound; otherwise it succeeds after the loop and returns `_format_results` of the recorded gaps and `Qs`; `last_t < T` always, and `best_gap < nu` whenever the last gap is below `nu`, so in particular whenever the loop broke early (converged) |
| GridSearch.GridSearchClassification.New | fairlearn/reductions/grid_search_classification.py:14-22 | construction fails exactly when the fairness metric is not demographic parity; otherwise the new object holds the grid size, with no models and no best model |
| GridSearch.LabelsBinaryIff | fairlearn/reductions/grid_search_classification.py:28-31 | the label check passes exactly when every label is 0 or 1 |
| GridSearch.ProtectedAttributeInfo | fairlearn/reductions/grid_search_classification.py:84-92 | more than two distinct values is an error, and so is an empty attribute; otherwise `a0` is the smallest value, `p0` is its count over `n` with `0 < p0 <= 1`, and `p0 + p1 == 1` |
| GridSearch.DefaultLimit | fairlearn/reductions/grid_search_classification.py:38-40 | the limit is `p0 / p1` when `p1 > 0` and `p0 / p1 > 1`, and 1 otherwise; it is always at least 1 |
| GridSearch.Linspace | fairlearn/reductions/grid_search_classification.py:41-43 | `np.linspace` gives `num` values from `start` to `stop` in equal steps |
| GridSearch.Multipliers | fairlearn/reductions/grid_search_classification.py:36-43 | supplied multipliers are used as given; a negative count is an error; otherwise the grid has `number_of_lagrange_multipliers` values, the first `-2 * limit`, the last `2 * limit`, and consecutive values `4 * limit / (count - 1)` apart: the grid is `np.linspace(-2 * limit, 2 * limit, count)` |
| GridSearch.Weight | fairlearn/reductions/grid_search_classification.py:94-98 | the weight is `2y - 1 - L * p_ratio` in group `a0` and `2y - 1 + L` elsewhere |
| GridSearch.GenerateWeights | fairlearn/reductions/grid_search_classification.py:100-102 | the weight function applied row by row |
| GridSearch.Relabel | fairlearn/reductions/grid_search_classification.py:55-56 | the new label is 1 exactly when the weight is positive, and 0 otherwise |
| GridSearch.Absolute | fairlearn/reductions/grid_search_classification.py:60 | every sample weight given to the learner is the weight or its negation, and is non-negative |
| GridSearch.RelabelAtZero | fairlearn/reductions/grid_search_classification.py:48-60 | at multiplier 0 the relabels equal the binary labels and every sample weight is 1 |
| GridSearch.Train | fairlearn/reductions/grid_search_classification.py:46-67 | the entry stores its multiplier and no quality yet; the learner is fitted with, for every row, the label 1 exactly when that row's weight `_weight_function(y, a, L, p1 / p0, a0)` is positive (0 otherwise) and the sample weight equal to the absolute value of that weight |
| GridSearch.TrainAll | fairlearn/reductions/grid_search_classification.py:45-67 | `all_models` holds one entry per multiplier, in input order |
| GridSearch.Scored | fairlearn/reductions/grid_search_classification.py:108-116 | every entry keeps its model and multiplier and gains the quality `-(error + disparity)` |
| GridSearch.ArgMaxFirst | fairlearn/reductions/grid_search_classification.py:118 | the index found holds a maximum, and every earlier entry is strictly smaller, so it is the first maximum, as Python's `max` returns it |
| GridSearch.BestIsFirstMaximal | fairlearn/reductions/grid_search_classification.py:104-119 | the chosen model has the greatest quality of all models and strictly greater quality than every model before it |
| GridSearch.GridSearchClassification.TrainModels | fairlearn/reductions/grid_search_classification.py:45-67 | the loop leaves `all_models` equal to one trained entry per multiplier, in order, and changes nothing else |
| GridSearch.GridSearchClassification.TrainAndSelect | fairlearn/reductions/grid_search_classification.py:45-70 | after the checks, `all_models` is the scored list of one trained entry per multiplier; with no multipliers the selection fails and the best model is unchanged; otherwise the best model is the first of greatest quality |
| GridSearch.GridSearchClassification.SelectBestModel | fairlearn/reductions/grid_search_classification.py:104-119 | every model is scored in place; with no models it fails; otherwise it returns the first model of greatest quality |
| GridSearch.GridSearchClassification.Fit | fairlearn/reductions/grid_search_classification.py:27-70 | non-binary labels, a bad protected attribute and a negative grid size each fail and leave the object unchanged; otherwise `all_models` is the scored list of trained entries, and the best model is the first of greatest quality, or the call fails when there are no multipliers |
| CvxpyUtils.ComputeLine | fairlearn/postprocessing/_cvxpy_utils.py:44-86 | equal points are an error; equal x-coordinates give a vertical line; otherwise the slope is the difference quotient and both points lie on `y = slope * x + intercept` |
| CvxpyUtils.ComputeHalfspaceInequality | fairlearn/postprocessing/_cvxpy_utils.py:89-177 | it fails exactly when the points are equal, so the internal-consistency errors can never be raised; it never returns the `[0, 0, 0]` fallback |
| CvxpyUtils.HalfspaceIsScaledCross | fairlearn/postprocessing/_cvxpy_utils.py:130-174 | in every branch `A1 * x + A2 * y + b` equals the cross product of `p2 - p1` and `q - p1` times a fixed negative factor |
| CvxpyUtils.HalfspaceThroughPoints | fairlearn/postprocessing/_cvxpy_utils.py:130-174 | both points lie on the boundary `A1 * x + A2 * y + b == 0` |
| CvxpyUtils.HalfspaceIsLeftSide | fairlearn/postprocessing/_cvxpy_utils.py:97-174 | a point satisfies the inequality exactly when it lies on or to the left of the directed line `p1 -> p2` |
| CvxpyUtils.PolygonConstraints | fairlearn/postprocessing/_cvxpy_utils.py:211-243 | a polygon of `n` vertices yields exactly `n` constraints, the `i`-th from vertices `i` and `(i + 1) mod n`; it fails exactly when two consecutive vertices are equal |
| CvxpyUtils.InPolygonIff | fairlearn/postprocessing/_cvxpy_utils.py:211-243 | a point meets every polygon constraint exactly when it lies on or to the left of every edge |
| CvxpyUtils.Pairs | fairlearn/postprocessing/_cvxpy_utils.py:338-374 | the group pairs constrained are exactly those `(i, j)` with `i < j < n_groups`, each once, in the lexicographic order in which `product(range(n), range(n))` yields them |
| CvxpyUtils.RateIndex | fairlearn/postprocessing/_cvxpy_utils.py:348-364 | (corrected) true positive and false negative rate parity compare ROC coordinate 1, false positive and true negative rate parity coordinate 0; every other name is "not supported"; it succeeds exactly on the rate parities of `ALL_CONSTRAINTS` |
| CvxpyUtils.RateIndexAsWritten | fairlearn/postprocessing/_cvxpy_utils.py:348-364 | (as written) true positive and false negative rate parity compare ROC coordinate 1, false positive rate parity coordinate 0, and `true_negative_rate_parity` reaches the "not supported" error; it succeeds exactly on the three other rate parities |
| CvxpyUtils.RateIndexAgrees | fairlearn/postprocessing/_cvxpy_utils.py:348-364 | the corrected dispatch agrees with the code as written on every name but `true_negative_rate_parity` |
| CvxpyUtils.FairnessConstraintsAsWritten | fairlearn/postprocessing/_cvxpy_utils.py:304-378 | (as written) a name outside `ALL_CONSTRAINTS` is rejected, then unequal lengths are rejected; with equal lengths `true_negative_rate_parity` fails as "not supported"; on every other name the result is that of the corrected dispatch |
| CvxpyUtils.TrueNegativeRateParityFails | fairlearn/postprocessing/_cvxpy_utils.py:348-364 | (as written) `true_negative_rate_parity` is a supported name, yet every call with consistent lengths fails with the "not supported" error, where the corrected dispatch constrains ROC coordinate 0 |
| CvxpyUtils.FairnessConstraints | fairlearn/postprocessing/_cvxpy_utils.py:304-378 | an unknown name is rejected; unequal lengths of hulls and group-size arrays are rejected; otherwise equalized odds constrains every pair of groups and a rate parity constrains the pairs on its ROC coordinate |
| CvxpyUtils.FairOptimumConstraints | fairlearn/postprocessing/_cvxpy_utils.py:304-386 | (corrected) it succeeds exactly when the name is supported, the lengths agree and no hull has a degenerate edge; the result holds the fairness plan and each group's polygon constraints; as written, `true_negative_rate_parity` would fail instead (see `TrueNegativeRateParityFails`) |
| TruePositiveRate.ComputeTruePositiveRate | fairlearn/metrics/true_positive_rate.py:9-35 | it succeeds exactly when there is a positive overall and in every group; the metric is true positives over positives; `group_metric` has exactly one entry per distinct group id, holding that group's ratio |
| TruePositiveRate.CountRows | fairlearn/metrics/true_positive_rate.py:14-29 | the loop over the rows of the zip leaves the overall counters and the per-group dictionaries equal to the number of positives and true positives among those rows |
| TruePositiveRate.ZeroCounts | fairlearn/metrics/true_positive_rate.py:12-21 | the dictionaries start with a zero for exactly each distinct group id |
| TruePositiveRate.GroupRates | fairlearn/metrics/true_positive_rate.py:32-33 | the per-group ratios are computed for every group; the loop fails exactly when some group has no positives |
| TruePositiveRate.TruePositivesArePositives | fairlearn/metrics/true_positive_rate.py:24-29 | the true positives never outnumber the positives, overall or in any group |
| TruePositiveRate.RateInUnitInterval | fairlearn/metrics/true_positive_rate.py:31-33 | every rate reported lies in `[0, 1]` |
| TruePositiveRate.GroupCountsPartition | fairlearn/metrics/true_positive_rate.py:24-29 | when every row's group is listed once, the per-group counts add up to the overall count |
| TruePositiveRate.GroupTotals | fairlearn/metrics/true_positive_rate.py:12-29 | the per-group positives add up to `positives_all`, and the per-group true positives add up to `true_positives_all` |
| TruePositiveRate.Example | test/test_true_positive_rate.py:9-18 | the worked example gives 3 of 5 overall (0.6), 2 of 2 in group 0 (1.0) and 1 of 3 in group 1 |
| InputManipulations.Squeeze | fairlearn/metrics/_input_manipulations.py:23-24 | the squeezed shape has no length-1 axis, keeps every other axis length and keeps the product of the lengths |
| InputManipulations.SqueezeSingle | fairlearn/metrics/_input_manipulations.py:23-24 | a single axis is removed exactly when its length is 1 |
| InputManipulations.SqueezeAppend | fairlearn/metrics/_input_manipulations.py:23-24 | squeezing the concatenation of two shapes gives the concatenation of their squeezes, so the kept axes keep their order and multiplicity |
| InputManipulations.Ensure1d | fairlearn/metrics/_input_manipulations.py:7-28 | the elements and their order never change; more than one element squeezes the shape; one element gives shape `(1,)`; no elements is an error |
| InputManipulations.Ensure1dIdempotent | fairlearn/metrics/_input_manipulations.py:21-28 | applying the function to its own result changes nothing |
| InputManipulations.NoUnitAxisUnchanged | fairlearn/metrics/_input_manipulations.py:12-24 | an array with no length-1 axis, `(2, 2)` for one, comes back unchanged |
| InputManipulations.OneDimensionalIff | fairlearn/metrics/_input_manipulations.py:21-28 | the result is one-dimensional exactly when at most one input axis is longer than 1, and then its single axis holds every element |
| InputManipulations.Examples | test/unit/metrics/test_input_manipulations.py:11-49 | `[0, 1, 2]` stays `(3,)`; `[[0], [1]]` and `[[0, 1]]` become `(2,)` with elements in order; `[[[1]]]` becomes `(1,)`; `(2, 2)` is kept; an empty array fails |

## Left out

- The `_Lagrangian` internals (`best_h`, `gammas`, `eval_gap`, `solve_linprog`, `hs`) are oracle functions. Their only modelled property is that the cached gamma vectors have one entry per constraint.
- The default `nu` derived from the standard deviation of the first predictions is left out, because it is floating-point statistics over the learner's output; `nu` is an input.
- `eta_min` is only logged, so it is not modelled beyond being unbound when `T < 1`.
- Logging, `n_oracle_calls`, the classifier list and the `best_classifier` closure are left out; randomised `predict` and `_mean_pred` are left out too.
- The tuning constants (`_MIN_T`, `_PRECISION` and the rest) come from a module that is not part of this model, so they are parameters.
- ExpGradient.Fit: `_format_results` pads `Qs[best_t]` in place, so the padded series is also the entry in `Qs`. The model returns a padded copy and does not capture this aliasing.
- ExpGradient.Lagrangian: the oracle's state is a function of the lambda vectors it has been given so far, so any other hidden state of the real object is not captured.
- The learner's `fit`/`predict`, `copy.deepcopy` and the moments' `gamma` computations are abstract functions, because they are foreign code.
- GridSearch.GenerateWeights: supplied multipliers are taken as reals; `np.vectorize` without `otypes` fixes its output type from the first call, so integer multipliers with a first row outside group `a0` truncate the later fractional weights to integers, and the model does not capture that truncation.
- GridSearch.Weight: numpy's broadcasting in `np.vectorize` is not modelled; the label and attribute arrays are assumed to have equal length.
- The cvxpy variables, the objective and the solver call in `compute_fair_optimum` are left out, because they belong to a foreign linear-programming library. So is `_import_cvxpy_if_available`.
- CvxpyUtils.ComputeLine and CvxpyUtils.ComputeHalfspaceInequality: `np.isclose` is exact equality, so the floating-point tolerance and the near-vertical and near-horizontal cases it absorbs are not modelled; that the internal-consistency errors of `compute_halfspace_inequality` can never be raised holds under this exact-equality reading.
- CvxpyUtils.FairOptimumConstraints: the hulls are a sequence indexed by group, so a dictionary of hulls missing a group index (a `KeyError`) is not modelled; the polygon constraints are kept per group rather than flattened into one list.
- The ROC points of `compute_line` are pairs; arrays of other lengths are not modelled.
- GridSearch.ProtectedAttributeInfo and TruePositiveRate.ComputeTruePositiveRate: protected-attribute values and group ids are integers, where the code accepts any values `np.unique` can sort; the abstraction keeps their order.
- TruePositiveRate.ComputeTruePositiveRate: labels and predictions are integers compared with 1, and floating-point division is exact.
- InputManipulations.Ensure1d: `np.asarray` of ragged nested lists is not modelled; an array is its shape and its elements.

## Findings

| source | as written | input that shows it | evidently intended | confidence | as-written member | corrected member |
|---|---|---|---|---|---|---|
| fairlearn/postprocessing/_cvxpy_utils.py:350-364 | the second test of the rate dispatch repeats `false_negative_rate_parity`, so `true_negative_rate_parity` reaches the "not supported" `ValueError` | `fairness_constraint="true_negative_rate_parity"` with consistent lengths | true negative rate parity compares ROC coordinate 0, since the true negative rate is one minus the false positive rate | not executed | CvxpyUtils.TrueNegativeRateParityFails | CvxpyUtils.FairnessConstraints |
