# SMO support-vector training, RProp and activations in Dafny

This project models three parts of a Python machine-learning and numerical-optimisation
library and proves properties of the models.

- **The SMO engines of `ml/svm.py`.** Platt's sequential minimal optimisation trains support
  vector machines. Both variants carry the improvements of Keerthi et al. (classification)
  and Shevade et al. (regression).
  - `SVC.SMOClassifier` is modelled by the class `Svc.SmoClassifier` in `svc.dfy`. It has one
    multiplier array, five index sets `I0`…`I4`, the thresholds `b_up`/`b_low` with their
    indices, and an error cache that is updated in place.
  - `SVR.SMORegression` is modelled by the class `Svr.SmoRegression` in `svr.dfy`. It has two
    multiplier arrays (`alphas_p`, `alphas_n`), four index sets, thresholds over the
    tube-shifted errors `E ± epsilon`, and the four-case pair loop of Flake and Lawrence.
  - What both share lives in `smo_base.dfy`: the dot product behind a recomputed error, the
    incremental cache update, the extremum properties of a threshold rescan, the gain
    parabola of a two-multiplier step, and the full-sweep / active-set-sweep state machine.
- **RProp** (`optiml/opti/unconstrained/stochastic/rprop.py`) is the class
  `RPropOptimizer.RProp` in `rprop.dfy`. Each update adapts the per-coordinate step sizes
  `changes` by the sign of the gradient product, clips them to `[min_step, max_step]` and
  moves `x` against the sign of the gradient, with optional standard or Nesterov momentum.
- **The activation functions** of `ml/activations.py` are pure functions in
  `activations.dfy`.

`common.dfy` holds `Option`, `Max`, `Min`, `Abs`, `Clip` and `Indicator`.

Numbers are Dafny `real`s, so there is no rounding. The kernel matrix `K` is a read-only,
symmetric n×n input. Classification labels are ±1 and `C > 0`.

An exception the engines raise becomes a `Failure` of the `SmoBase.Result` datatype:
- `'unexpected status'` is raised when a rescan after a step finds no index for `b_up` or
  `b_low`.
- `'the index could not be found'` cannot happen in either engine, for two different reasons.
  - The regressor raises it when `i2` lies in none of I0…I3 (ml/svm.py:969-970). Its `Valid()`
    keeps every index in one of its sets, and the model asserts that branch is dead.
  - The classifier raises it when the chosen threshold index `i1` is -1 (ml/svm.py:481-482).
    Its `Valid()` (through `Shape()`) keeps `b_up_idx` and `b_low_idx` example indices
    between steps, and `ExamineExample` proves that every partner is an example index.

The regression loop updates `delta_E` as written in the source. After every pass it adds
`eta` times the change of `alpha2_p - alpha2_n` since the start of the step, not since the
previous pass.

The classifier's error is `f - y` (line 447). The regressor's is `y - f` (line 907). Each
engine's `Residual` follows its own sign.

## Model

| member | source | states |
|---|---|---|
| Common.Clip | ml/svm.py:335 | `clip(x, lo, hi)` never exceeds `hi`, lies in `[lo, hi]` when that interval is non-empty, and is `x` when `x` already lies in it |
| Activations.Sigmoid | ml/activations.py:15-20 | exactly 1 from 100 up, exactly 0 from -100 down, strictly between 0 and 1 in between, always in `[0, 1]` |
| Activations.SigmoidDerivative | ml/activations.py:22-23 | on the sigmoid's range the derivative lies in `[0, 1/4]` and vanishes at 0 and 1 |
| Activations.SigmoidSaturates | ml/activations.py:15-23 | past the ±100 clamp the derivative of the sigmoid's output is exactly 0 |
| Activations.TanhDerivative | ml/activations.py:49-50 | on tanh's range `[-1, 1]` the derivative lies in `[0, 1]` and vanishes at ±1 |
| Activations.Relu | ml/activations.py:28-29 | never negative, at least `x`, `x` for `x > 0` and 0 otherwise |
| Activations.ReluDerivative | ml/activations.py:31-32 | 0 or 1, and 1 exactly when `x > 0`; `PiecewiseLinearSlopes` proves it is the slope of `Relu` on either side of 0 |
| Activations.LeakyRelu | ml/activations.py:55-56 | `x` for `x > 0`, `alpha*x` otherwise; with a slope in `[0, 1]` a non-positive input maps into `[x, 0]` |
| Activations.LeakyReluDerivative | ml/activations.py:58-59 | 1 for `x > 0`, `alpha` otherwise; `PiecewiseLinearSlopes` proves it is the slope of `LeakyRelu` on either side of 0 |
| Activations.Elu | ml/activations.py:37-38 | `x` for `x > 0` |
| Activations.EluDerivative | ml/activations.py:40-41 | 1 for `x > 0` |
| Activations.EluDerivativeFromValue | ml/activations.py:37-41 | on the non-positive side the derivative is the ELU value plus `alpha` |
| Activations.LeakyReluGeneralisesRelu | ml/activations.py:55-56 | the leaky ReLU with slope 0 is the ReLU |
| Activations.PiecewiseLinearSlopes | ml/activations.py:53-59 | on either side of 0 the change of ReLU and of leaky ReLU between two points is the derivative times the change of the argument |
| Activations.LeakyReluMonotone | ml/activations.py:55-56 | with a slope in `[0, 1]` the leaky ReLU is monotone |
| RPropOptimizer.Sign | optiml/opti/unconstrained/stochastic/rprop.py:99 | `sign(v)*v == |v|`, the sign is 0 exactly for 0 and has magnitude 1 otherwise |
| RPropOptimizer.SignedStepMagnitude | optiml/opti/unconstrained/stochastic/rprop.py:99 | a coordinate with zero gradient takes a zero step; any other moves by exactly its step size, on the side of its gradient's sign |
| RPropOptimizer.SubtractInPlace | optiml/opti/unconstrained/stochastic/rprop.py:102-104 | `x -= d` leaves every entry decreased by the matching entry of `d` |
| RPropOptimizer.RProp.NewChange | optiml/opti/unconstrained/stochastic/rprop.py:93-97 | the new step size lies in `[min_step, max_step]`; before the clip it is grown where the gradient product is positive, shrunk where negative, and kept where zero |
| RPropOptimizer.RProp.constructor | optiml/opti/unconstrained/stochastic/rprop.py:39-44 | the step-size parameters are stored and `changes` and `jacobian` start at zero; `step`, `iter`, `epoch` and `status` start at zero and `Running` (see Left out) |
| RPropOptimizer.RProp.AdaptChanges | optiml/opti/unconstrained/stochastic/rprop.py:93-97 | every entry of `changes` becomes `NewChange` of its old value and the previous and current gradient entries |
| RPropOptimizer.CountBatchEnds | optiml/opti/unconstrained/stochastic/rprop.py:75-76 | the number of epoch ends among the first `count` batches, never more than `count` |
| RPropOptimizer.RProp.Next | optiml/opti/unconstrained/stochastic/rprop.py:82-111 | one update as a function of the state keeps every vector at the dimension `n` |
| RPropOptimizer.RProp.NextProperties | optiml/opti/unconstrained/stochastic/rprop.py:82-111 | after `Next` the gradient is the one at the evaluation point, each step size is `NewChange` of its old value and the two gradient entries and lies in `[min_step, max_step]`, the step is `NextStep` of the old step and `changes*sign(g)`, `x` moves by minus the step, and without momentum each coordinate moves by exactly its step size against its gradient's sign |
| RPropOptimizer.RProp.NextFromParts | optiml/opti/unconstrained/stochastic/rprop.py:82-111 | any state with the gradient, step sizes, step and parameters of an update is `Next` |
| RPropOptimizer.RProp.Replay | optiml/opti/unconstrained/stochastic/rprop.py:54-111 | the state after `Next` applied to the first `count` batches in order keeps the dimension `n` |
| RPropOptimizer.RProp.ReplayStepSizesBounded | optiml/opti/unconstrained/stochastic/rprop.py:95-97 | once at least one batch has been replayed, every step size lies in `[min_step, max_step]` |
| RPropOptimizer.RProp.Update | optiml/opti/unconstrained/stochastic/rprop.py:82-111 | the gradient is taken at the Nesterov-shifted point (or at `x`); `changes` adapts; `step` is `step2`, or `momentum*prev_step + step2` with momentum; `x` decreases by exactly the new `step`; `iter` grows by one; the new state is `Next` of the old one |
| RPropOptimizer.RProp.Admit | optiml/opti/unconstrained/stochastic/rprop.py:70-80 | a callback stop rejects the batch and changes nothing; otherwise an epoch end advances `epoch`, and the batch is admitted exactly when `epoch < epochs` after that, the status turning `Stopped` when it is not |
| RPropOptimizer.RProp.Step | optiml/opti/unconstrained/stochastic/rprop.py:54-111 | one loop pass: the tests of `Admit`, then, for an admitted batch, the state becomes `Next` of the old one and `iter` grows by one; a rejected batch leaves the state and `iter` as they were |
| RPropOptimizer.RProp.Minimize | optiml/opti/unconstrained/stochastic/rprop.py:54-111 | the state is `Replay` of the first `updates` batches and `iter` grows by `updates`; each of those batches passed both tests (`Admitted`); `epoch` has counted the epoch ends of every batch looked at, the rejecting one included unless the callback stopped it; the run ends early only on a callback stop or with status `Stopped` and `epoch >= epochs`, and otherwise the status is kept |
| SmoBase.DotAfterPair | ml/svm.py:359-365 | writing two entries moves a dot product by the two changes times the matching entries |
| SmoBase.CacheAfterStep | ml/svm.py:359-365 | the error cache after a step has the same length, and entries outside I0, `i1`, `i2` are unchanged |
| SmoBase.NextExamineAll | ml/svm.py:509-512 | a full sweep is followed by an active-set sweep, and an active-set sweep is followed by a full sweep exactly when it changed nothing; `StopsOnlyAfterQuietFullSweep` ties it to the loop condition |
| SmoBase.StopsOnlyAfterQuietFullSweep | ml/svm.py:493-512 | the outer loop stops after a sweep exactly when that sweep examined every example and changed nothing |
| Svc.CategoriesPartition | ml/svm.py:268-278 | a boxed multiplier with a ±1 label belongs to exactly one of I0…I4 |
| Svc.FirstIndex | ml/svm.py:284-286 | the first index holding the label: it holds it and no earlier index does |
| Svc.PairBounds | ml/svm.py:308-319 | `0 <= L <= H <= C` for any pair of boxed multipliers |
| Svc.PairedAlpha1Feasible | ml/svm.py:351-352 | any `a2` in `[L, H]` puts `a1 = alpha1 + s*(alpha2 - a2)` in the box and keeps `y1*a1 + y2*a2` |
| Svc.NewAlpha2 | ml/svm.py:324-345 | for `eta > 0` the new `alpha2` lies in `[L, H]` and is the unclipped minimum when that lies inside; otherwise it is `L`, `H` or the old value, and an endpoint only when its objective term wins by more than 1e-12 |
| Svc.NewAlpha2Maximises | ml/svm.py:324-345 | the new `alpha2` gains at least as much dual objective as any point of `[L, H]` (for `eta > 0`, and for `eta = 0` when it moves) |
| Svc.SolvePair | ml/svm.py:304-352 | no step exactly when `L == H` or the change is negligible; otherwise both new multipliers are in the box, `a2` is in `[L, H]` and differs from `alpha2`, and `y1*a1 + y2*a2` is kept |
| Svc.SnapToBounds | ml/svm.py:367-376 | a boxed multiplier stays boxed and moves by less than `1e-8*C`; within that distance of a bound it lands on the bound |
| Svc.ResidualAfterPair | ml/svm.py:359-365 | after a pair step every recomputed error moves by `y1*(a1-alpha1)*K[i1][i] + y2*(a2-alpha2)*K[i2][i]` |
| Svc.CacheAfterStepIsResidual | ml/svm.py:359-365 | an exact cache entry of I0, `i1` or `i2` stays exact: the incremental update equals recomputation over the unsnapped multipliers |
| Svc.EqualityConstraintDrift | ml/svm.py:351-380 | a step keeps `sum(y*alphas)` before the snap, and the snap moves it by less than `2e-8*C` |
| Svc.SelectPartner | ml/svm.py:458-479 | no partner exactly when neither eligible gap exceeds `2*tol`; otherwise a threshold index across a violated gap, the larger gap for a free `i2` |
| Svc.SmoClassifier.constructor | ml/svm.py:260-289 | multipliers zero, I1/I4 hold the +1/-1 labels and the other sets are empty, `b_up = -1`, `b_low = 1` at the first +1 and -1 indices, whose errors are -1 and 1; the state is valid |
| Svc.SmoClassifier.FreshError | ml/svm.py:447 | the loop's sum is the residual `(alphas*y).dot(K[i]) - y[i]` |
| Svc.SmoClassifier.UpdateErrorCache | ml/svm.py:359-365 | the cache becomes `CacheAfterStep` of the old cache: I0, `i1` and `i2` move by their weighted deltas, nothing else |
| Svc.SmoClassifier.ShiftFree | ml/svm.py:360-362 | the loop over I0 moves exactly the free entries other than `i1`, `i2` |
| Svc.SmoClassifier.Recategorize | ml/svm.py:383-403 | index `i` ends in exactly the sets its multiplier and label call for; every other index keeps its sets |
| Svc.SmoClassifier.ScanFree | ml/svm.py:414-420 | the smallest and largest cached error over I0 with indices attaining them, or the sentinel and -1 |
| Svc.SmoClassifier.ScanStepIndex | ml/svm.py:421-436 | an index outside I0 joins the `b_low` scan when in I3 or I4 and the `b_up` scan otherwise, keeping each an extremum |
| Svc.SmoClassifier.Thresholds | ml/svm.py:405-436 | `b_up` is the minimum and `b_low` the maximum error over I0 plus the eligible step indices |
| Svc.SmoClassifier.RescanThresholds | ml/svm.py:409-439 | the stored thresholds are those extrema, and both are found exactly when neither index is -1 |
| Svc.SmoClassifier.WritePair | ml/svm.py:378-380 | only positions `i1`, `i2` are written, every multiplier stays in the box, and every other index stays categorized |
| Svc.SmoClassifier.StoreMultipliers | ml/svm.py:378-403 | the state is valid again, only `i1`, `i2` change, and no other index moves between sets |
| Svc.SmoClassifier.MovePair | ml/svm.py:359-403 | the cache update with the unsnapped deltas, then the snapped multipliers and recategorization, keep the state valid |
| Svc.SmoClassifier.ApplyStep | ml/svm.py:359-441 | the multipliers, cache, sets and thresholds after a step, and the `'unexpected status'` failure exactly when a threshold index is -1 |
| Svc.SmoClassifier.StoreError | ml/svm.py:448 | only the cache entry of `i` changes |
| Svc.SmoClassifier.RefreshError | ml/svm.py:446-456 | the recomputed error is stored; an I1/I2 index may only lower `b_up`, an I3/I4 index may only raise `b_low`, and a threshold that moves takes `i2` |
| Svc.SmoClassifier.SetUp | ml/svm.py:452-453 | `b_up` and its index become the given pair, validity kept |
| Svc.SmoClassifier.SetLow | ml/svm.py:455-456 | `b_low` and its index become the given pair, validity kept |
| Svc.SmoClassifier.TakeStep | ml/svm.py:291-441 | `false` with nothing changed exactly when `i1 == i2` or no step is due; otherwise only `i1`, `i2` written with the snapped solution, the cache moved at I0, `i1`, `i2`, the two indices recategorized and the thresholds rescanned |
| Svc.SmoClassifier.ExamineExample | ml/svm.py:443-484 | the error used is the cached or recomputed one; `b_up` may only fall to it from I1/I2 and `b_low` only rise to it from I3/I4; the partner is exactly `SelectPartner` on the refreshed thresholds, always an example index; with no partner the result is `false` and multipliers and sets are unchanged; with one the result is `false` exactly when the partner is `i2` or `SolvePair` finds no step |
| Svc.SmoClassifier.FullSweep | ml/svm.py:497-499 | a sweep over every example keeps the state valid and counts at most n changes |
| Svc.SmoClassifier.ActiveSweep | ml/svm.py:500-508 | a sweep over the free examples keeps the state valid and reports no change when optimality on I0 is attained |
| Svc.SmoClassifier.Smo | ml/svm.py:486-519 | on convergence the last sweep was a full one with no change, and the bias is `-(b_low + b_up)/2` |
| Svr.CategoriesPartition | ml/svm.py:659-667 | boxed, complementary multipliers put the example in exactly one of I0…I3 |
| Svr.NewValue | ml/svm.py:707-713 | the new second multiplier lies in `[L, H]`; for `eta > 0` it is the Newton step when that lies inside; for `eta = 0` it is `L` exactly when `L`'s objective is larger |
| Svr.NewValueMaximises | ml/svm.py:707-713 | the chosen value gains at least as much dual objective as any point of `[L, H]` |
| Svr.EnteredCaseIsMovable | ml/svm.py:700-788 | a case whose guard holds on complementary multipliers finds the two multipliers it does not move at zero |
| Svr.PartnerKeepsConstraints | ml/svm.py:700-788 | moving a case's second multiplier within its `[L, H]` and the first by the matching amount keeps the box, complementarity and `gamma` |
| Svr.CaseStep | ml/svm.py:704-722 | one case keeps box, complementarity and `gamma`; it finishes exactly when `L >= H`; with `L < H` it moves exactly when `NewValue` and its paired first multiplier differ from the old pair by more than 1e-12, and a move takes exactly those two values; the other two multipliers are kept |
| Svr.Proposal | ml/svm.py:704-722 | with `L < H` the proposal keeps box, complementarity and `gamma`, never finishes, and is taken exactly when `NewValue` in `[L, H]` and its paired first multiplier move one of the two by more than 1e-12; a taken proposal holds exactly those values |
| Svr.CaseStepIsBest | ml/svm.py:704-788 | a case that moves puts its second multiplier where the dual objective's gain along it is largest over `[L, H]` |
| Svr.Choose | ml/svm.py:700-790 | the chosen case is untried and its guard holds, and every case before it in the order PP, PN, NP, NN is tried or not entered; none is chosen exactly when no untried case's guard holds |
| Svr.MarkDecreases | ml/svm.py:695-790 | trying a case leaves one fewer untried, so each case fires at most once |
| Svr.RunPass | ml/svm.py:700-790 | with no case chosen the pass finishes and changes nothing; otherwise the chosen case is marked tried and the pass is exactly its `CaseStep` with that case's gradient; box, complementarity and `gamma` are kept, and the untried count plus one while not finished goes down |
| Svr.TryCase | ml/svm.py:701-788 | trying an untried case marks it, leaves fewer untried, and gives exactly that case's `CaseStep` with its gradient |
| Svr.PairLoop | ml/svm.py:700-792 | passes until one finishes, with `delta_E` grown after each pass, end with the multipliers in the box, complementary and with `gamma` kept; `changed` once set stays set, and with nothing changed the multipliers are the ones passed in |
| Svr.PairSolve | ml/svm.py:686-795 | the loop from no case tried, `delta_E = E1 - E2` and `eta` clamped at 0 ends in the box, complementary and with `gamma` kept, and at `m0` when nothing changed |
| Svr.SolvePair | ml/svm.py:686-795 | the imperative loop computes exactly `PairSolve`: in the box, complementary, `gamma` kept, and unchanged when nothing changed |
| Svr.Snap | ml/svm.py:815-834 | a boxed multiplier stays boxed and moves by at most `1e-10*C`; above `C - 1e-10*C` it becomes `C`, at or below `1e-10*C` it becomes 0, and between the two it is kept |
| Svr.SnapAll | ml/svm.py:815-834 | snapping the four multipliers keeps the box and complementarity |
| Svr.ResidualAfterPair | ml/svm.py:803-813 | after a pair step every recomputed error moves by the two decreases of `alpha_p - alpha_n` times `K[i1][i]`, `K[i2][i]` |
| Svr.CacheAfterStepIsResidual | ml/svm.py:803-813 | an exact cache entry of I0, `i1` or `i2` stays exact after the incremental update |
| Svr.BalanceAfterPair | ml/svm.py:836-838 | writing the pair moves `sum(alphas_p - alphas_n)` by the two changes of `alpha_p - alpha_n` |
| Svr.EqualityConstraintDrift | ml/svm.py:693-838 | a step that keeps `gamma` keeps `sum(alphas_p - alphas_n)` before the snap, and the snap moves it by at most `2e-10*C` |
| Svr.SelectPartner | ml/svm.py:923-970 | no partner exactly when neither eligible gap exceeds `2*tol`; otherwise a threshold index, across the violated gap for a one-sided set and the larger gap (ties to `b_low`) for a free `i2` |
| Svr.AllIndices | ml/svm.py:663 | `set(range(k))` holds exactly the indices `0 <= i < k` |
| Svr.SmoRegression.constructor | ml/svm.py:649-673 | multipliers and cache zero, every example in I1, both threshold indices 0 with `b_up = y[0] + epsilon` and `b_low = y[0] - epsilon`; the state is valid |
| Svr.SmoRegression.FreshError | ml/svm.py:907 | the loop's sum gives the residual `y[i] - (alphas_p - alphas_n).dot(K[i])` |
| Svr.SmoRegression.UpdateErrorCache | ml/svm.py:803-813 | the cache becomes `CacheAfterStep` of the old cache with the two decreases |
| Svr.SmoRegression.ShiftFree | ml/svm.py:804-808 | the loop over I0 moves exactly the free entries other than `i1`, `i2` |
| Svr.SmoRegression.Recategorize | ml/svm.py:840-857 | index `i` ends in exactly the sets its two multipliers call for; every other index keeps its sets |
| Svr.SmoRegression.ScanFree | ml/svm.py:865-878 | the smallest `b_up` value and the largest `b_low` value (`E ∓ epsilon` by the free side) over I0, with indices attaining them, or the sentinel and -1 |
| Svr.SmoRegression.ScanStepIndex | ml/svm.py:880-894 | an index outside I0 joins the `b_low` scan from I2 or I1 and the `b_up` scan from I3 or I1, keeping each an extremum |
| Svr.SmoRegression.Thresholds | ml/svm.py:859-894 | `b_up` and `b_low` are the extrema of the tube-shifted errors over I0 plus the eligible step indices |
| Svr.SmoRegression.RescanThresholds | ml/svm.py:859-897 | the stored thresholds are those extrema, and both are found exactly when neither index is -1 |
| Svr.SmoRegression.WritePair | ml/svm.py:836-838 | only positions `i1`, `i2` of both arrays are written; box and complementarity hold; every other index stays categorized |
| Svr.SmoRegression.StoreMultipliers | ml/svm.py:836-857 | the state is valid again, only `i1`, `i2` change, and no other index moves between sets |
| Svr.SmoRegression.MovePair | ml/svm.py:803-857 | the cache update with the unsnapped decreases, then the snapped multipliers and recategorization, keep the state valid |
| Svr.SmoRegression.ApplyStep | ml/svm.py:803-899 | the multipliers, cache, sets and thresholds after a step, and the `'unexpected status'` failure exactly when a threshold index is -1 |
| Svr.SmoRegression.StoreError | ml/svm.py:908 | only the cache entry of `i` changes |
| Svr.SmoRegression.RefreshError | ml/svm.py:906-921 | the recomputed error is stored; `b_up` may only fall and `b_low` only rise, to `i2`'s tube-shifted value, by the rules for I1, I2 and I3 |
| Svr.SmoRegression.SetUp | ml/svm.py:910-912 | `b_up` and its index become the given pair, validity kept |
| Svr.SmoRegression.SetLow | ml/svm.py:913-915 | `b_low` and its index become the given pair, validity kept |
| Svr.SmoRegression.SolveCurrentPair | ml/svm.py:680-795 | the pair loop on the stored multipliers, errors and kernel entries of `i1`, `i2` gives `PairSolution` of them, boxed, complementary and keeping `gamma` |
| Svr.SmoRegression.TakeStep | ml/svm.py:675-899 | `false` with nothing changed exactly when `i1 == i2` or the pair loop (`PairSolution` of the current state) changed nothing; otherwise the solved pair is that loop's result, boxed, complementary and keeping `gamma`, only `i1`, `i2` are written with its snap, the cache moves at I0, `i1`, `i2`, the two are recategorized and the thresholds rescanned |
| Svr.SmoRegression.ExamineExample | ml/svm.py:901-975 | the error used is the cached or recomputed one; a threshold moves only to `i2`'s tube-shifted value and only in its own direction; from I1 `b_low` is kept when `b_up` fell, and ends at least `E2 - epsilon` when `E2 + epsilon` was not below `b_up`; I2 keeps `b_up` and I3 keeps `b_low`; the partner is exactly `SelectPartner` on the refreshed thresholds, always an example index; with no partner the result is `false` and multipliers and sets are unchanged; with one the result is `false` exactly when the partner is `i2` or the pair loop changes nothing |
| Svr.SmoRegression.FullSweep | ml/svm.py:988-990 | a sweep over every example keeps the state valid and counts at most n changes |
| Svr.SmoRegression.ActiveSweep | ml/svm.py:991-999 | a sweep over the free examples keeps the state valid and reports no change when optimality on I0 is attained |
| Svr.SmoRegression.Smo | ml/svm.py:977-1011 | on convergence the last sweep was a full one with no change, and the bias is `(b_low + b_up)/2` |

## Left out

- Floating point: every quantity is an exact `real`. The constants `1e-8`, `1e-10`, `1e-12` and `sys.float_info.max` are exact values. Rounding, overflow and NaN are not modelled.
- `np.exp` and `np.tanh` are not interpreted. The sigmoid and ELU take `exp` as a function parameter. `Tanh.function` (a bare `np.tanh`) has no model; only its derivative does.
- Activations.Sigmoid: requires `exp(-x) > 0`, which the real exponential guarantees but an uninterpreted parameter does not.
- Activations.Elu, Activations.EluDerivative: on the non-positive side the contracts say nothing beyond the formula, since `exp` is not interpreted.
- The kernel functions, `fit`/`predict`/`decision_function`, `SVM.plot`, verbose printing and the objective evaluation through `self.f.function` are not modelled. `K` is a given matrix.
- The weight vector `w` of the linear kernel (ml/svm.py:356-357, ml/svm.py:799-801) is not modelled.
- The parameter checks of `SVM.__init__` are not modelled. The classifier's constructor requires both labels to occur, as `next(...)` does; the regressor's requires at least one example, as `y[0]` does.
- Iteration over a Python `set` picks its next index by `:|`, in no fixed order. When two indices tie for a threshold, the one kept may differ from CPython's choice.
- Svc.SmoClassifier.Smo, Svr.SmoRegression.Smo: the outer loop runs at most `fuel` sweeps, because its termination depends on numeric convergence. `Success(false)` reports that the fuel ran out.
- Svc.SmoClassifier.FullSweep, Svc.SmoClassifier.ActiveSweep, Svr.SmoRegression.FullSweep, Svr.SmoRegression.ActiveSweep: the contracts state validity and the count bound, not which examples changed.
- Svc.SmoClassifier.ExamineExample, Svr.SmoRegression.ExamineExample: when a partner is found, the contract gives the result but does not restate what `TakeStep` does to the state.
- RPropOptimizer.RProp.constructor: `step`, `iter`, `epoch`, `status`, `epochs` and the momentum settings are set by the `StochasticOptimizer` base class, which is not part of this model. The model takes `epochs` and the momentum settings as parameters and starts `step` at zero, `iter` and `epoch` at 0 and the status at `Running`. These are assumed starting values, not ones read from the base class.
- RPropOptimizer.RProp.Minimize: the objective value `f_x` and the gradient `g_x` computed at the top of each batch are not modelled, because the update does not read them. The batch iterator and the callback are given as a sequence of `Batch` values, each saying whether it closes an epoch and whether the callback stops. The `StochasticOptimizer` base class is not part of this model.
- Other optimisers of the repository (gradient descent, subgradient, projected gradient, the QP base) are not part of this model.
