# A verified model of a polynomial-fitting trainer with a curriculum

The program fits a degree-9 polynomial (N = 10 coefficients) to a target
function by forward-difference gradient descent. Only the first `enabled`
powers of the input are active. A curriculum unlocks one more power at each
convergence event. A schedule adapts the learning rate to the sign of the
loss change. The loss history is drawn as a report every 100 epochs and
after the run.

This project models the training controller of `src/main.rs` and the data
preparation of `src/plot.rs` over Dafny's exact `real` numbers, and proves
properties of that model:

- `vectors.dfy` (module `RealVectors`): the vector operations the trainer
  takes from its tensor library (dot product, squared norm, scaling,
  element-wise difference and product).
- `polynomial.dfy` (modules `Polynomial` and `Factorial`): the features `x^i`
  for the active slots, the model output, and `fac`. `fac` is modelled as a
  loop over 32-bit signed integers.
- `training.dfy` (module `Training`):
  - the mean squared error over the fixed sample grid `x = 0, 0.01, …, 4.99`;
  - the forward-difference partial derivatives;
  - damping, clipping and the gradient step;
  - the loss history, which runs one epoch late;
  - the learning-rate schedule and the curriculum.
  
  The two process-wide globals of the source (`enabled`, `threshold`) and the
  locals of the epoch loop (`coeffs`, `glr`, `l`, `losses`, `last_conv`) are
  the fields of a `Trainer` class. Its methods update them in place. Two
  ghost fields, `computed` (the loss after each step) and `events` (the
  epochs of the convergence events), back the invariant `Valid`. A pure
  transition `NextState` gives the loop variables after one epoch, and
  `Run` iterates it; `Advance` and `Train` are proved to agree
  with them.
- `loss_curve.dfy` (module `LossCurve`): the part of the loss-curve report
  before its markup:
  - the successive loss changes;
  - an in-place sorted copy;
  - the interquartile-range bounds;
  - the clamp into those bounds;
  - the warm-up skip;
  - the default threshold line.
- `comparison.dfy` (module `Comparison`): the evenly spaced sampling grid of
  the function-comparison report.

The trainer works with three collaborators, all passed in when it is built:

- the target function, an arbitrary `real -> real`;
- one positive damping factor per degree. The source computes
  `1 / (k+1)^1.5`, which has no exact real counterpart here;
- the Euclidean norm. It is any function whose value is non-negative and
  whose square is the sum of squares, since Dafny has no square root.

Two behaviours of the source are kept as written:

- When the loss improves after the warm-up, the learning rate is boosted and
  then clamped. A rate above the ceiling `1e-3` is reset to the floor `1e-6`,
  not to the ceiling.
- The threshold retune can never fire. It needs `dl < threshold` inside a
  branch that already requires `dl > threshold`. As a result the threshold
  is the same throughout a run.

Two further facts about the code:

- In the decrease branch, a boosted rate already inside `[1e-6, 1e-3]` is
  kept. Only a rate outside that range is reset to `1e-6`.
- The sample grid is fixed at `5.0 / 0.01 = 500` points, so the loss never
  divides by zero.

## Model

| member | source | states |
|---|---|---|
| `Polynomial.EvalIgnoresInactive` | src/main.rs:23-35 | coefficients at slots `>= enabled` never affect the output: two vectors that agree on the active slots evaluate alike at every `x` |
| `Polynomial.EvalZero` | src/main.rs:23-35 | all-zero coefficients give 0 for every `x` and every `enabled` |
| `Polynomial.EvalSingleTerm` | src/main.rs:23-35 | with one active term the output is `coeffs[0]` (the feature `x^0` is 1, also at `x = 0`) |
| `Training.Trainer.Infer` | src/main.rs:23-35 | the loop that fills the feature array for `i < enabled` and then takes the dot product computes the model output `Eval` |
| `Factorial.FitsInI32` | src/main.rs:15-21 | for `i >= 1`, `i!` fits in an `i32` exactly when `i <= 12` |
| `Factorial.Fac` | src/main.rs:15-21 | the accumulating loop yields a value exactly when `n <= 12`, and that value is `n!` (1 for `n <= 0`); otherwise an arithmetic overflow is reported |
| `Training.Trainer.Mse` | src/main.rs:58-67 | the loop over the 500 grid points yields the mean of the squared residuals `(model(x) - target(x))^2` |
| `Training.MseIgnoresInactive` | src/main.rs:58-67 | the loss does not depend on inactive coefficients |
| `Training.Trainer.Grad` | src/main.rs:70-74 | the gradient closure yields `(mse(c with c[k] + h) - mse(c)) / h` |
| `Training.GradientVanishesWhenInactive` | src/main.rs:70-74 | the forward-difference partial derivative is exactly 0 in every slot `k >= enabled` |
| `Training.Trainer.DampedGradient` | src/main.rs:96-101 | the per-coefficient loop fills every slot, active or not, with its partial derivative times its damping factor |
| `Training.Trainer.DirectionVanishesWhenInactive` | src/main.rs:96-109 | damping and clipping keep the inactive slots' zero gradient at zero |
| `Training.Clip` | src/main.rs:103-109 | a gradient whose norm exceeds `max_gnorm` is scaled by `max_gnorm / g_norm`, and its squared norm becomes `max_gnorm^2`; any other gradient is unchanged; the squared norm of the result is at most `max_gnorm^2`; zero entries stay zero |
| `Training.Trainer.StepCoefficients` | src/main.rs:93-111 | the new coefficients are the old ones minus the learning rate times the damped and clipped gradient; slots `>= enabled` do not move |
| `Training.Trainer.RecordLoss` | src/main.rs:114-117 | the history gets the previous loss, not the new one; `l` becomes the loss after the step; `dl` is the change |
| `Training.NextRate` | src/main.rs:122-131 | `dl > 0`: rate times 0.99. `dl < 0` after epoch 50: the result lies in `[1e-6, 1e-3]`, a boosted rate above `1e-3` or below `1e-6` becomes `1e-6`, and an in-range boosted rate is kept. Otherwise the rate is unchanged. A rate in `(0, 1e-3]` stays there |
| `Training.ConvergenceDue` | src/main.rs:133-138 | an event needs `e % 5 == 0`, `dl > threshold` and `e - last_conv > 500`; if `last_conv` is a multiple of 5, the event is at least 505 epochs after it |
| `Training.EventsSpacedExtend` | src/main.rs:138-140 | an event appended at the current epoch keeps the record spaced: multiples of 5, the first at epoch 205 or later, each at least 505 after the previous; it becomes the last event |
| `Training.Retune` | src/main.rs:146-148 | the retune gives `2 * dl` when `dl < threshold` with more than one term active; when `dl >= threshold`, as in the only branch that calls it, it keeps the threshold |
| `Training.Trainer.Curriculum` | src/main.rs:133-152 | on an event: `last_conv` becomes `e`, one more term is unlocked while fewer than N are active, and the threshold is unchanged. With no event the state is unchanged. The spacing of events and `enabled == min(N, 3 + #events)` are preserved |
| `Training.Trainer.Epoch` | src/main.rs:92-152 | one epoch as a whole: the gradient step; the new loss; the history one epoch late; the next rate; the curriculum, with the epoch recorded as an event exactly when one is due. Inactive coefficients do not move, the threshold is unchanged, and the trainer invariant is kept |
| `Training.Trainer.NextState` | src/main.rs:92-152 | one epoch as a transition of the loop variables: step along the damped, clipped gradient; new loss with the terms active before the curriculum; previous loss appended; rate scheduled; on an event the epoch recorded, a term unlocked and the threshold retuned. The history grows by one, the threshold never changes, and `enabled` never decreases and never exceeds N |
| `Training.Trainer.Run` | src/main.rs:92-169 | `n` epochs numbered from 0 as `n` transitions: the history grows by `n`, the threshold never changes, and `enabled` never decreases and never exceeds N |
| `Training.Trainer.Advance` | src/main.rs:92-152 | one call of the epoch body moves the trainer's loop variables exactly as `NextState` does, and keeps the trainer invariant |
| `Training.Trainer.Train` | src/main.rs:92-169 | the final loop variables are `Run` of the initial ones over `epochs` epochs: every coefficient, the loss, the history, the rate, the active-term count, the threshold and the last event come from `epochs` transitions. In addition the history has `epochs` entries. `enabled` never decreases and stays `<= N`. The threshold never changes. Successive events are at least 505 epochs apart |
| `Training.Trainer.constructor` | src/main.rs:43-90 | the initial state: zero coefficients, rate `1e-4`, loss 0, empty history, 3 active terms, threshold `-5e-5`, `last_conv = -300` |
| `LossCurve.Range` | src/plot.rs:194-202 | the epoch lists `0..len` and `1..len`: `hi - lo` entries, entry `i` is `lo + i` |
| `LossCurve.Derivatives` | src/plot.rs:197-201 | `len - 1` entries (none for an empty history); entry `i - 1` is `losses[i] - losses[i - 1]` |
| `LossCurve.SortInPlace` | src/plot.rs:205-206 | the array ends ascending and is a permutation of its input |
| `LossCurve.QuartileIndices` | src/plot.rs:208-209 | for `m >= 1` values the quartile positions are `m/4` and `3*m/4`, with `m/4 <= 3*m/4 < m` |
| `LossCurve.OutlierBounds` | src/plot.rs:208-214 | on a sorted non-empty list: `q1 = sorted[m/4]`, `q3 = sorted[3*m/4]` and `iqr = q3 - q1`; `q1 <= q3`, `iqr >= 0`, and `lower <= q1 <= q3 <= upper`, with the bounds `1.5 * iqr` beyond the quartiles |
| `LossCurve.Clamp` | src/plot.rs:218 | `d.max(lower).min(upper)` is at most `upper`, at least `lower` when `lower <= upper`, and equals `d` when `d` is already inside |
| `LossCurve.ClampAll` | src/plot.rs:217-219 | the filtered list has the same length as its input and clamps each entry |
| `LossCurve.SkipInitial` | src/plot.rs:222 | the skip is `min(10, len / 10)`: at most 10, at most a tenth of the history, and equal to one of the two |
| `LossCurve.Skip` | src/plot.rs:223-230 | the suffix after dropping `k` items. It is empty when fewer than `k` remain, and entry `i` is entry `k + i` of the input |
| `LossCurve.ThresholdValue` | src/plot.rs:232 | the caller's threshold, or `1e-5` when none is given |
| `LossCurve.Prepare` | src/plot.rs:189-232 | the computations above, composed, for a history of at least two losses. The sorted changes are a sorted permutation of the changes. Every filtered change lies within `[lower, upper]`, and a change already inside is unchanged. The filtered list is each change clamped into `[lower, upper]` (`ClampAll`): a change below `lower` becomes `lower`, one above `upper` becomes `upper`. The two stable lists are equal-length suffixes of the filtered changes and their epochs |
| `Comparison.GridEndpoints` | src/plot.rs:21-29 | the grid starts at `x_min` and its last point is exactly `x_max` |
| `Comparison.GridMonotone` | src/plot.rs:21-29 | when `x_min <= x_max` the grid points ascend |
| `Comparison.SampleFunctions` | src/plot.rs:21-36 | the sampling loop yields three lists of length `num_points`. Entry `i` is the grid point `x_min + i * step`, the trained value there and the target value there. The x-values start at `x_min`, end at `x_max`, and ascend when `x_min <= x_max` |

## Left out

- The HTML and JavaScript of both reports, file creation and writing: they are report output with no feedback into training.
- The periodic and final report calls, and every printed diagnostic, including the `starting_loss` computed only for printing: they are output side effects.
- Floating point throughout. Every quantity is an exact real. NaN and infinities do not exist, so the panic of `partial_cmp(..).unwrap()` on a NaN change has no counterpart.
- The exact `1/(k+1)^1.5` damping: it is taken as a positive factor per degree, supplied from outside.
- The square root inside the norm: the norm is supplied from outside, with only `norm(v) >= 0` and `norm(v)^2 == sum of squares` known of it.
- The cosine target: it is an arbitrary function supplied from outside.
- The truncating cast of `max / step` to `usize`: the grid size is the floor of the exact quotient, 500.
- `h = 5e-15` as an exact real: the rounding that makes this step numerically fragile in the source is not modelled.
- The tensor library's dimension tags: they are dropped; its operations are plain `seq<real>` operations. The squared residual's magnitude is the residual squared, since it is never negative.
- Any statement that training converges, such as a final loss below the first, or that the curriculum fires at least once: both depend on the real-valued numerics of the target.
- `Factorial.Fac`: an `i32` overflow is modelled as the panic of a debug build, reported as `Overflow`; the wrap-around of a release build is not modelled.
- `LossCurve.Prepare`: requires at least two losses. With fewer, the source panics when it indexes the empty sorted list; every call in the program passes at least 101 losses.
- `Comparison.SampleFunctions`: requires at least two points. With none, the source's `num_points - 1` underflows; with one, its step divides by zero and yields non-finite x-values. Every call in the program passes 500 points.
