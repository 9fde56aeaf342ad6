# PID step-size controller, modelled in Dafny

This project models `PIDController`, the adaptive step-size controller of a batched ODE
solver. After each attempted step, the controller decides per batch element whether to
accept the step and how to scale the next one. It carries a two-slot history of accepted
error ratios and reconciles the states of batch elements that finish at different times.
It also estimates a first step size with the heuristic of Hairer, Nørsett and Wanner
(*Solving ODEs I*, section II.4).

Every operation of the source is an elementwise tensor expression with no loops and no
mutation, so the model is made of functions and lemmas:

- `wrappers.dfy` (`Wrappers`): `Option` for optional tensors, `Result` for the calls
  that can fail (`SelectInitialStep` and `Init`).
- `floats.dfy` (`Floats`): the floating-point values the tensors hold. The finite part is
  an exact `real`. The values +inf, -inf and NaN are kept, and they propagate as
  `torch.maximum`, `torch.minimum`, `torch.clamp`, the comparisons and the arithmetic
  operators propagate them. This is what makes `isfinite`, the `INFINITE_NORM` status and
  division by a zero error bound meaningful.
- `batch.dfy` (`Batch`): `torch.where` as an elementwise select over sequences.
- `pid_state.dfy` (`PidState`): `PIDState` as a record. It holds `method_order`, the two
  history slots, `dt_min`, `dt_max` and `almost_zero`, with `PIDState.default` and
  `update_error_ratios`.
- `pid_controller.dfy` (`PidController`): the configuration and the controller's
  operations:
  - `dt_factor`
  - `update_state`
  - `merge_states`
  - `adapt_step_size`, with the error ratio, acceptance and status
  - `_select_initial_step`
  - `init`
- `pid_properties.dfy` (`PidProperties`): lemmas that relate several calls, or that need
  facts about the norm and the power.

A batch is a `seq` with one entry per element, and a data tensor is a `seq` of rows. The
norm, the vector field and the real-exponent power `**` are function-valued parameters
about which nothing is assumed. A lemma or contract clause that needs a fact about one of
them names that fact as a hypothesis: `NonNegativeNorm`, `FiniteOnFinite`,
`PropagatesNonFinite`, `ZeroRowHasZeroNorm`, `ZeroNorm`, `PowerNonNegative`,
`PowerPositive`, `PowerAntitone`, `PowerOfOne` and `PowerPropagatesNaN`. Each constrains the foreign function only where
the controller uses it. For example, `PowerNonNegative` asks for a power that is
non-negative or NaN on non-negative or NaN bases, which torch's `**` is; negative bases
are unconstrained. One fact is a
precondition rather than a hypothesis. `InitialStepAt`, `SelectInitialStep` and `Init`
require `PreservesShape`: the vector field returns a derivative of the state's shape, as
the Euler trial step at line 260 needs.

Facts about the code that the model makes explicit:

- The comment at line 257 says the cap keeps the solver inside the integration bounds.
  Yet line 258 caps only the first guess `dt0`, and line 277 returns
  `direction * min(100*dt0, dt1)`, which can exceed the cap `|t_end - t_start|`.
  `InitialStepMayExceedSpan` gives a proposal ten times the span.
- Line 209 clamps the signed step `dt_next` into `[dt_min, dt_max]`. For backward
  integration (negative `dt`), a positive `dt_min` turns every step into the forward
  step `dt_min` (`BackwardStepRaisedToDtMin`). A non-negative `dt_max` never limits a
  backward step (`DtMaxLeavesBackwardStep`). So the bounds in `AdaptWithRatio` and
  `SuccessfulStepBounded` are bounds on the signed value, not on the magnitude.
- Line 81 clamps the growth factor into `[factor_min, factor_max]` unless the unclamped
  product is NaN: a NaN power, or 0 times infinity. `torch.clamp` keeps NaN.
- `ThreeStepTrajectory` threads each call's `dt_next` into the next call, as a solve
  loop does. It fixes the growth factors of a reject / accept / accept sequence.

## Model

| member | source | states |
|---|---|---|
| `PidController.WithDefaults` | nodes/step_size_controllers/pid_controller.py:25-57 | the keyword defaults: safety 0.9 and factor bounds 0.2 ≤ 10.0, which are ordered, so the clamp guarantee below applies; every other setting, the norm included, is kept as given |
| `PidController.Exponents` | nodes/step_size_controllers/pid_controller.py:73-78 | the exponents of the current, previous and one-before-previous ratio, each multiplied by the order, are -(kI+kP+kD), kP+2kD and -kD for the un-normalised gains |
| `PidController.RawFactor` | nodes/step_size_controllers/pid_controller.py:76-79 | the unclamped product `safety * factor1 * factor2 * factor3` is NaN when any of the three powers is NaN and finite when all three are finite |
| `PidProperties.RawFactorOfFinitePowers` | nodes/step_size_controllers/pid_controller.py:76-79 | with three finite powers, the unclamped factor is exactly the real product of the safety factor and the three powers |
| `PidController.FactorAt` | nodes/step_size_controllers/pid_controller.py:73-81 | the growth factor is never infinite: it is NaN or a number ≤ factor_max; it is ≥ factor_min when factor_min ≤ factor_max; it is NaN exactly when the unclamped product is; it is finite whenever the three powers are |
| `PidController.DtFactor` | nodes/step_size_controllers/pid_controller.py:59-81 | each batch element's factor uses only that element's ratio and history; each factor is NaN or a number ≤ factor_max, and lies in [factor_min, factor_max] when factor_min ≤ factor_max |
| `PidState.Default` | nodes/step_size_controllers/pid_controller.py:83-97 | a fresh state keeps the order and bounds and has both history slots neutral (1) for every element; its history is valid exactly when almost_zero ≤ 1 (or the batch is empty) |
| `PidState.UpdateErrorRatios` | nodes/step_size_controllers/pid_controller.py:114-124 | only the two history slots change; order, dt_min, dt_max and almost_zero carry over |
| `PidController.MergeStates` | nodes/step_size_controllers/pid_controller.py:99-104 | a running element takes both slots from `current`, a finished one from `previous`; the configuration comes from `current` |
| `PidProperties.MergeAllRunning` | nodes/step_size_controllers/pid_controller.py:99-104 | with an all-true mask the merge is `current` |
| `PidProperties.MergeNoneRunning` | nodes/step_size_controllers/pid_controller.py:99-104 | with an all-false mask the merge has `previous`'s history, and is `previous` when the two states share their configuration |
| `PidProperties.MergePreservesHistory` | nodes/step_size_controllers/pid_controller.py:99-104 | merging two states whose history slots lie in [almost_zero, 1] gives such a state, when current's almost_zero is at most previous's (the merged state keeps current's) |
| `PidController.UpdateState` | nodes/step_size_controllers/pid_controller.py:106-124 | without a ratio, every element shifts in 1 and the old prev becomes prev_prev; with one, an accepted element gets prev = ratio and prev_prev = old prev, and a rejected element keeps both slots; the configuration is untouched |
| `PidController.ErrorBounds` | nodes/step_size_controllers/pid_controller.py:188 | for finite states, atol > 0 and rtol ≥ 0, every bound is finite and at least atol |
| `PidController.ScaledError` | nodes/step_size_controllers/pid_controller.py:189-192 | the componentwise `abs(error_estimate) / error_bounds` has the row's length; a NaN estimate component stays NaN; with finite states, atol > 0 and rtol ≥ 0, each component is NaN or non-negative |
| `PidController.ErrorRatioAt` | nodes/step_size_controllers/pid_controller.py:188-192 | the floored ratio is NaN, +inf or a number ≥ almost_zero; it is NaN exactly when the norm is; a norm already ≥ almost_zero is returned unchanged; it is finite exactly when the norm is finite or -inf |
| `PidController.ErrorRatio` | nodes/step_size_controllers/pid_controller.py:188-192 | each batch element's ratio comes from that element's rows alone and is floored at almost_zero |
| `PidController.Accept` | nodes/step_size_controllers/pid_controller.py:193 | an element is accepted exactly when its ratio is strictly below 1, so a ratio of exactly 1, +inf or NaN is rejected |
| `PidController.Statuses` | nodes/step_size_controllers/pid_controller.py:198-203 | SUCCESS exactly where the ratio is finite and INFINITE_NORM exactly where it is ±inf or NaN, element by element, with no failure of the whole call |
| `PidController.ScaledStep` | nodes/step_size_controllers/pid_controller.py:196 | `dt * dt_factor` per element: NaN where dt or the factor is NaN, and the real product where both are finite |
| `PidController.AdaptWithRatio` | nodes/step_size_controllers/pid_controller.py:193-216 | acceptance iff ratio < 1; status per element; without step bounds dt_next is dt times the factor; with dt_max set, the signed dt_next ≤ dt_max unless NaN; with dt_min set (and dt_min ≤ dt_max when both are set), the signed dt_next ≥ dt_min unless NaN; NaN only where the unclamped step is NaN; history shifted on accepted elements and kept on rejected ones |
| `PidController.AdaptStepSize` | nodes/step_size_controllers/pid_controller.py:164-216 | without an error estimate: all accepted, dt_next = dt exactly, no status, history (1, old prev); with one: accepted exactly where the floored ratio is finite and < 1, and then the accepted ratio (≥ almost_zero) is the new prev |
| `PidProperties.AdaptPreservesHistory` | nodes/step_size_controllers/pid_controller.py:176-216 | if almost_zero ≤ 1, every history slot stays a finite ratio in [almost_zero, 1] across a call, with or without an error estimate |
| `PidProperties.RejectionKeepsState` | nodes/step_size_controllers/pid_controller.py:119-124 | when every element is rejected the state is returned unchanged, so repeating the call repeats its whole result |
| `PidProperties.ScaledErrorFinite` | nodes/step_size_controllers/pid_controller.py:188-192 | with finite states, atol > 0 and rtol ≥ 0, a scaled error component is finite exactly when the estimate's component is |
| `PidProperties.NonFiniteEstimateFlagged` | nodes/step_size_controllers/pid_controller.py:187-203 | for a norm that is non-negative, finite on finite rows and non-finite on rows with a non-finite entry: an element reports INFINITE_NORM exactly when its error estimate holds ±inf or NaN, independently of the other elements |
| `PidProperties.SuccessfulStepBounded` | nodes/step_size_controllers/pid_controller.py:192-209 | from a valid history, with positive powers of positive numbers: a SUCCESS element gets a finite dt_next, in [dt·factor_min, dt·factor_max] without step bounds (dt > 0), ≤ dt_max and ≥ dt_min when those are set |
| `PidProperties.FactorNonIncreasing` | nodes/step_size_controllers/pid_controller.py:73-81 | with non-negative gains, a positive order and a positive safety factor, a larger error ratio never gives a larger growth factor, given a power that does not increase with its base for non-positive exponents |
| `PidProperties.ThreeStepTrajectory` | nodes/step_size_controllers/pid_controller.py:73-124 | gains 0.2/0.2/0, order 4, dt 0.1, ratios 2.0, 0.5, 0.8: reject with the state unchanged, then accept with factor clamp(0.9·0.5^-0.1), then accept with factor clamp(0.9·0.8^-0.1·0.5^0.05), the history ending at (0.8, 0.5) |
| `PidProperties.SingleElementStep` | nodes/step_size_controllers/pid_controller.py:193-216 | on a one-element batch without step bounds: accept iff ratio < 1, dt_next = dt·factor, and the state shifted or unchanged accordingly |
| `PidProperties.BackwardStepRaisedToDtMin` | nodes/step_size_controllers/pid_controller.py:205-209 | the clamp acts on the signed step: with 0 < factor_min ≤ factor_max, a positive dt_min and no dt_max, a finite negative dt with a finite factor gets dt_next = dt_min, a forward step |
| `PidProperties.DtMaxLeavesBackwardStep` | nodes/step_size_controllers/pid_controller.py:205-209 | with 0 < factor_min ≤ factor_max, a non-negative dt_max and no dt_min, a finite negative dt with a finite factor keeps its unclamped dt_next, which is ≤ dt·factor_min < 0, so dt_max never bounds its magnitude |
| `PidController.ResolveTerm` | nodes/step_size_controllers/pid_controller.py:240-243 | the vector field passed in wins over the configured one; there is none exactly when neither is given |
| `PidController.InverseScale` | nodes/step_size_controllers/pid_controller.py:248-249 | `1 / (atol + rtol·|y0|)`: with atol > 0 and rtol ≥ 0, each finite component gives a finite weight in (0, 1/atol]; a NaN component gives NaN |
| `PidController.FirstGuess` | nodes/step_size_controllers/pid_controller.py:251-258 | dt0 never exceeds dt_max unless NaN; it is min(1e-6, dt_max) where d0 or d1 < 1e-5, and min(0.01·d0/d1, dt_max) otherwise, which is the real min(0.01·d0/d1, dt_max) for finite d0, d1 ≥ 1e-5 and a finite dt_max; for finite non-negative norms and a finite dt_max ≥ 0 it lies in [0, dt_max], and for non-negative norms it lies there or is NaN |
| `PidController.SecondGuess` | nodes/step_size_controllers/pid_controller.py:268-275 | where max(d1, d2) ≤ 1e-15, dt1 ≥ 1e-6 (unless dt0 is NaN); elsewhere dt1 = (0.01/max(d1, d2))^(1/order); with a non-negative power it is non-negative or NaN |
| `PidController.FinalStep` | nodes/step_size_controllers/pid_controller.py:277 | NaN propagates; for a direction of ±1, a finite dt0 ≥ 0 and a non-negative dt1 the proposal has the direction's sign (or is 0) and magnitude ≤ 100·dt0 |
| `PidController.TrialState` | nodes/step_size_controllers/pid_controller.py:260 | the Euler trial state y0 + (direction·dt0)·f0 has the shape of y0 and, for finite inputs, is exactly y0[i] + direction·dt0·f0[i] per component; a NaN dt0 makes every component NaN |
| `PidController.InitialStepAt` | nodes/step_size_controllers/pid_controller.py:245-277 | the returned derivative is the vector field at (t0, y0); the first guess, second guess and proposal are connected as above; for a non-negative norm, d0 and d1 are non-negative or NaN |
| `PidController.InitialStepAtBounded` | nodes/step_size_controllers/pid_controller.py:251-277 | for a non-negative norm and power and a finite cap ≥ 0, the proposal is NaN or has the sign of a ±1 direction, with magnitude ≤ 100·cap |
| `PidProperties.InitialStepMayExceedSpan` | nodes/step_size_controllers/pid_controller.py:257-277 | the cap bounds dt0 only: for any vector field and state, with a norm that is zero everywhere and a span of 1e-7, dt0 is 1e-7 but the proposal is 1e-6, ten times the span |
| `PidProperties.ZeroSpanInitialStepIsNaN` | nodes/step_size_controllers/pid_controller.py:254-277 | with a zero time span, finite data, atol > 0 and a norm mapping zero rows to 0, the proposal is NaN: dt0 = 0 and d2 = 0/0 |
| `PidProperties.ZeroStepKeepsState` | nodes/step_size_controllers/pid_controller.py:260 | a trial step of length 0 from finite data leaves the state as it is |
| `PidProperties.ZeroChangeHasZeroNorm` | nodes/step_size_controllers/pid_controller.py:268 | with atol > 0, the scaled difference of a finite derivative with itself has norm 0 |
| `PidController.SelectInitialStep` | nodes/step_size_controllers/pid_controller.py:218-277 | fails exactly when no vector field is passed or configured; otherwise it gives one proposal and one derivative row per element; the derivative is the resolved vector field at (t0, y0), reusable by the caller, and the proposal is that element's `InitialStepAt` proposal; and each proposal is NaN or of its direction's sign with magnitude ≤ 100·cap (non-negative norm and power, finite cap ≥ 0) |
| `PidController.TimeSpan` | nodes/step_size_controllers/pid_controller.py:143 | the cap of each element is |t_end − t_start|: finite, non-negative and equal to t_end − t_start or its negation for finite times; NaN for a NaN time |
| `PidController.Init` | nodes/step_size_controllers/pid_controller.py:131-162 | fails exactly when no dt0 is given and no vector field is available; the state is `PIDState.default` with the configured bounds (valid when almost_zero ≤ 1); a given dt0 is returned unchanged without a derivative; otherwise dt0 and f0 are `SelectInitialStep`'s proposals and derivatives over the cap |t_end − t_start|, f0 is the vector field at (t_start, y0), and for finite times, a non-negative norm and power and a direction of ±1 each dt0 is NaN or has the direction's sign with magnitude ≤ 100·|t_end − t_start| |
| `Floats.Clamp` | nodes/step_size_controllers/pid_controller.py:209 | `torch.clamp` with optional bounds: NaN exactly for NaN input, finite with two bounds, ≤ the upper bound, ≥ the lower one when ordered, and the identity within the bounds |
| `Batch.Where` | nodes/step_size_controllers/pid_controller.py:102-103 | element i is taken from the first operand where the mask holds and from the second elsewhere |
| `Batch.WhereAllTrue` | nodes/step_size_controllers/pid_controller.py:102-103 | an all-true mask selects the first operand |
| `Batch.WhereAllFalse` | nodes/step_size_controllers/pid_controller.py:102-103 | an all-false mask selects the second operand |

## Left out

- Torch and `nn.Module` machinery (`register_buffer`, `.to(dtype=...)` and device casts, `torch.jit.export`) is not modelled: it is host-runtime plumbing with no effect on values beyond rounding.
- The `torch.jit.is_scripting()` branch of line 240 is not modelled. Under scripting a passed vector field is an assertion failure and the configured one is always used. The model follows the eager path.
- Floating-point rounding, overflow of finite results to infinity and the sign of zero are not modelled: the finite part of a `Float` is an exact real, and a zero divisor counts as +0.
- The real-exponent power `**`, the norm (`rms_norm` by default) and the vector field `term.vf` are not defined: they are foreign code and are taken as function parameters. The norm and the vector field act on one batch element's row at a time, because the batch elements are independent problems.
- `stats`, `args` and `force_monotonic_solve` are not modelled: the controller only passes them through, or never reads them. The `t0` argument of `adapt_step_size` is omitted because it is unused. The `y0` argument of `update_state` only supplies a dtype, so the model keeps just `dt` for the shape.
- The internals of `PIDState.default` and `update_error_ratios` are not modelled, because their source is not part of this model. `PidState.Default` and `PidState.UpdateErrorRatios` model only the behaviour the controller relies on is modelled: a neutral history of 1, and replacing just the two history slots. The value of `almost_zero` is a parameter of `Init`, because its definition is not part of this model.
- Tensor broadcasting is not modelled: batch tensors and rows must have equal lengths.
- `method_order = 0` is a precondition (`order != 0`), because the source raises a division by zero there.
- The `assert accept is not None` of line 120 is a precondition of `UpdateState`.
- The configured `dt_min` and `dt_max` are finite reals, so an infinite bound is not modelled.
- The status codes are a two-valued datatype rather than torchode's integer constants.
- PidController.SelectInitialStep: bounds each proposal by 100 times the cap and by the sign of its direction only under two hypotheses: a non-negative norm, and a power that is non-negative or NaN on non-negative or NaN bases. Without facts about the foreign norm and power, nothing about the value can be said.
- PidProperties.FactorNonIncreasing: the power is assumed monotone (non-increasing in its base for non-positive exponents) rather than defined.
