/**
 * The training controller: a mean squared error over a fixed sample grid,
 * forward-difference gradients, per-degree damping, norm clipping, a
 * gradient step, a one-epoch-late loss history, the learning-rate schedule,
 * and the curriculum that unlocks one more polynomial term at each
 * convergence event. All arithmetic is over the reals.
 */
module Training {
  import opened RealVectors
  import opened Polynomial

  /** Number of coefficients: one per degree 0..N-1. */
  const N: nat := 10
  /** Active terms at start-up. */
  const INITIAL_ENABLED: nat := 3
  /** Convergence threshold at start-up (signed). */
  const INITIAL_THRESHOLD: real := -5e-5
  /** Learning rate at start-up. */
  const INITIAL_RATE: real := 1e-4
  /** The epoch of the "previous" convergence event at start-up. */
  const INITIAL_LAST_CONV: int := -300
  /** Forward-difference step. */
  const H: real := 5e-15
  /** Spacing and (exclusive) end of the sample grid. */
  const STEP: real := 0.01
  const MAX: real := 5.0
  /** Number of sample points: `MAX / STEP` truncated. */
  const NUM_POINTS: nat := (MAX / STEP).Floor
  /** Largest gradient norm let through unscaled. */
  const MAX_GNORM: real := 10.0
  /** Learning-rate decay applied when the loss worsened. */
  const RATE_DECAY: real := 0.99
  /** Learning-rate clamp: the floor, and the ceiling past which the rate is reset to the floor. */
  const RATE_FLOOR: real := 1e-6
  const RATE_CEILING: real := 1e-3
  /** Epochs after which an improving loss boosts the learning rate. */
  const WARMUP: nat := 50
  /** The curriculum is inspected every CONV_PERIOD epochs ... */
  const CONV_PERIOD: nat := 5
  /** ... and a convergence event needs more than CONV_GAP epochs since the last one. */
  const CONV_GAP: nat := 500

  function Min(a: int, b: int): int
  {
    if a < b then a else b
  }

  function Abs(x: real): real
  {
    if x < 0.0 then -x else x
  }

  /** Sum of the squared residuals at the first `n` sample points `x = i * STEP`. */
  function SquaredResiduals(target: real -> real, c: seq<real>, enabled: nat, n: nat): real
  {
    if n == 0 then 0.0
    else
      var x := (n - 1) as real * STEP;
      var d := Eval(c, enabled, x) - target(x);
      SquaredResiduals(target, c, enabled, n - 1) + d * d
  }

  /** The mean squared error of the model against `target` over the sample grid. */
  function MeanSquaredError(target: real -> real, c: seq<real>, enabled: nat): real
  {
    SquaredResiduals(target, c, enabled, NUM_POINTS) / NUM_POINTS as real
  }

  /** Forward-difference estimate of the loss's partial derivative in coefficient `k`. */
  function PartialDerivative(target: real -> real, c: seq<real>, enabled: nat, k: nat): real
    requires k < |c|
  {
    (MeanSquaredError(target, c[k := c[k] + H], enabled) - MeanSquaredError(target, c, enabled)) / H
  }

  /** The raw gradient: one partial derivative per coefficient, active or not. */
  function Gradient(target: real -> real, c: seq<real>, enabled: nat): seq<real>
  {
    seq(|c|, k requires 0 <= k < |c| => PartialDerivative(target, c, enabled, k))
  }

  lemma {:induction false} SquaredResidualsIgnoreInactive(target: real -> real, c: seq<real>, c': seq<real>, enabled: nat, n: nat)
    requires |c| == |c'|
    requires forall i :: 0 <= i < |c| && i < enabled ==> c[i] == c'[i]
    ensures SquaredResiduals(target, c, enabled, n) == SquaredResiduals(target, c', enabled, n)
  {
    if n > 0 {
      SquaredResidualsIgnoreInactive(target, c, c', enabled, n - 1);
      EvalIgnoresInactive(c, c', enabled, (n - 1) as real * STEP);
    }
  }

  /** The loss does not depend on the inactive coefficients. */
  lemma MseIgnoresInactive(target: real -> real, c: seq<real>, c': seq<real>, enabled: nat)
    requires |c| == |c'|
    requires forall i :: 0 <= i < |c| && i < enabled ==> c[i] == c'[i]
    ensures MeanSquaredError(target, c, enabled) == MeanSquaredError(target, c', enabled)
  {
    SquaredResidualsIgnoreInactive(target, c, c', enabled, NUM_POINTS);
  }

  /** The estimated gradient is exactly zero in every inactive slot. */
  lemma GradientVanishesWhenInactive(target: real -> real, c: seq<real>, enabled: nat, k: nat)
    requires enabled <= k < |c|
    ensures Gradient(target, c, enabled)[k] == 0.0
  {
    MseIgnoresInactive(target, c[k := c[k] + H], c, enabled);
  }

  /**
   * Gradient clipping: a gradient whose norm `gNorm` exceeds MAX_GNORM is
   * rescaled by `MAX_GNORM / gNorm`, which brings its norm to exactly
   * MAX_GNORM; any other gradient is left as it is.
   */
  function Clip(g: seq<real>, gNorm: real): (r: seq<real>)
    requires gNorm >= 0.0 && gNorm * gNorm == SumSq(g)
    ensures |r| == |g|
    ensures gNorm <= MAX_GNORM ==> r == g
    ensures gNorm > MAX_GNORM ==>
      SumSq(r) == MAX_GNORM * MAX_GNORM &&
      forall k :: 0 <= k < |g| ==> r[k] == g[k] * (MAX_GNORM / gNorm)
    ensures SumSq(r) <= MAX_GNORM * MAX_GNORM
    ensures forall k :: 0 <= k < |g| && g[k] == 0.0 ==> r[k] == 0.0
  {
    if gNorm > MAX_GNORM then
      var s := MAX_GNORM / gNorm;
      SumSqScale(g, s);
      RescaledSquare(MAX_GNORM, gNorm);
      Scale(g, s)
    else
      assert gNorm * gNorm <= MAX_GNORM * MAX_GNORM by { SquareMonotone(gNorm, MAX_GNORM); }
      g
  }

  lemma RescaledSquare(m: real, n: real)
    requires n > 0.0
    ensures (m / n) * (m / n) * (n * n) == m * m
  {
    var q := m / n;
    assert q * n == m;
    assert q * q * (n * n) == (q * n) * (q * n);
  }

  lemma SquareMonotone(a: real, b: real)
    requires 0.0 <= a <= b
    ensures a * a <= b * b
  {
    assert a * a <= a * b;
    assert a * b <= b * b;
  }

  /**
   * The learning-rate schedule, given the loss change `dl` of epoch `e`: a
   * worse loss decays the rate; a better loss after the warm-up boosts it
   * and then clamps it into [RATE_FLOOR, RATE_CEILING], where an overshoot
   * past the ceiling lands on the floor; otherwise the rate is kept.
   */
  function NextRate(glr: real, dl: real, e: int, threshold: real): (r: real)
    ensures dl > 0.0 ==> r == glr * RATE_DECAY
    ensures dl < 0.0 && e > WARMUP ==> RATE_FLOOR <= r <= RATE_CEILING
    ensures dl < 0.0 && e > WARMUP && glr * BoostFactor(dl, threshold) > RATE_CEILING ==> r == RATE_FLOOR
    ensures dl < 0.0 && e > WARMUP && glr * BoostFactor(dl, threshold) < RATE_FLOOR ==> r == RATE_FLOOR
    ensures dl < 0.0 && e > WARMUP && RATE_FLOOR <= glr * BoostFactor(dl, threshold) <= RATE_CEILING ==>
      r == glr * BoostFactor(dl, threshold)
    ensures dl == 0.0 || (dl < 0.0 && e <= WARMUP) ==> r == glr
    ensures 0.0 < glr <= RATE_CEILING ==> 0.0 < r <= RATE_CEILING
  {
    if dl > 0.0 then
      glr * RATE_DECAY
    else if dl < 0.0 && e > WARMUP then
      var boosted := glr * BoostFactor(dl, threshold);
      if boosted > RATE_CEILING then RATE_FLOOR
      else if boosted < RATE_FLOOR then RATE_FLOOR
      else boosted
    else
      glr
  }

  /** The multiplier applied to the learning rate when the loss improved. */
  function BoostFactor(dl: real, threshold: real): real
  {
    1.0 + (2.0 * threshold + Abs(dl)) * 20.0
  }

  /**
   * Whether epoch `e` declares a convergence event: only every
   * CONV_PERIOD-th epoch, only when the loss change exceeds the threshold,
   * and only more than CONV_GAP epochs after the last event. Since events
   * fall on multiples of CONV_PERIOD, successive ones are at least
   * CONV_GAP + CONV_PERIOD epochs apart.
   */
  function ConvergenceDue(e: int, lastConv: int, dl: real, threshold: real): (due: bool)
    ensures due ==> e % CONV_PERIOD == 0 && dl > threshold && e > lastConv + CONV_GAP
    ensures due && lastConv % CONV_PERIOD == 0 ==> e >= lastConv + CONV_GAP + CONV_PERIOD
  {
    e % CONV_PERIOD == 0 && dl > threshold && e - lastConv > CONV_GAP
  }

  /** The epoch of the latest convergence event, INITIAL_LAST_CONV before the first. */
  function LastEvent(events: seq<int>): int
  {
    if |events| == 0 then INITIAL_LAST_CONV else events[|events| - 1]
  }

  /**
   * Convergence events, in order, of a run that has completed `done`
   * epochs: each on a multiple of CONV_PERIOD before `done`, and each at
   * least CONV_GAP + CONV_PERIOD epochs after the previous one (or after
   * INITIAL_LAST_CONV, for the first).
   */
  ghost predicate EventsSpaced(events: seq<int>, done: nat)
  {
    && (forall i :: 0 <= i < |events| ==> events[i] % CONV_PERIOD == 0 && 0 <= events[i] < done)
    && (|events| > 0 ==> events[0] >= INITIAL_LAST_CONV + CONV_GAP + CONV_PERIOD)
    && (forall i :: 1 <= i < |events| ==> events[i] >= events[i - 1] + CONV_GAP + CONV_PERIOD)
  }

  /** An event declared at epoch `done` extends a spaced record of events. */
  lemma EventsSpacedExtend(events: seq<int>, done: nat, dl: real, threshold: real)
    requires EventsSpaced(events, done)
    requires ConvergenceDue(done, LastEvent(events), dl, threshold)
    ensures EventsSpaced(events + [done], done + 1)
    ensures LastEvent(events + [done]) == done
  {
    assert LastEvent(events) % CONV_PERIOD == 0;
  }

  /** A record of events stays spaced as further epochs pass without one. */
  lemma EventsSpacedLater(events: seq<int>, done: nat)
    requires EventsSpaced(events, done)
    ensures EventsSpaced(events, done + 1)
  {
  }

  /**
   * The threshold retune of the curriculum block: twice the loss change when
   * the change is below the threshold and more than one term is active. A
   * change above the threshold, the only case in which the block runs it,
   * leaves the threshold as it is.
   */
  function Retune(dl: real, threshold: real, enabled: nat): (r: real)
    ensures dl < threshold && enabled > 1 ==> r == dl * 2.0
    ensures dl >= threshold || enabled <= 1 ==> r == threshold
  {
    if dl < threshold && enabled > 1 then dl * 2.0 else threshold
  }

  /** `norm` behaves as the Euclidean norm at `v`: non-negative, and its square is the sum of squares. */
  ghost predicate EuclideanAt(norm: seq<real> -> real, v: seq<real>)
  {
    norm(v) >= 0.0 && norm(v) * norm(v) == SumSq(v)
  }

  /** The values of the epoch loop's variables between two epochs. */
  datatype State = State(
    coeffs: seq<real>,
    glr: real,
    l: real,
    losses: seq<real>,
    enabled: nat,
    threshold: real,
    lastConv: int)

  /**
   * The trainer's state: the coefficient vector, the learning rate, the
   * last computed loss, the loss history, the active-term count, the
   * convergence threshold and the epoch of the last convergence event.
   * The target function, the per-degree damping factors and the Euclidean
   * norm are supplied from outside.
   */
  class Trainer {
    /** The function being fitted. */
    const target: real -> real
    /** The damping factor applied to each coefficient's raw partial derivative. */
    const damping: seq<real>
    /** The Euclidean norm of a gradient vector. */
    const norm: seq<real> -> real

    var coeffs: seq<real>
    var glr: real
    var l: real
    var losses: seq<real>
    var enabled: nat
    var threshold: real
    var lastConv: int
    /** The loss computed after each epoch's step, in order. */
    ghost var computed: seq<real>
    /** The epochs at which convergence events fired, in order. */
    ghost var events: seq<int>

    /** What the trainer needs of its collaborators. */
    ghost predicate Collaborators()
    {
      && |damping| == N
      && (forall k :: 0 <= k < N ==> damping[k] > 0.0)
      && (forall v :: EuclideanAt(norm, v))
    }

    ghost predicate Valid()
      reads this
    {
      && Collaborators()
      && |coeffs| == N
      && enabled <= N
      && (forall k :: enabled <= k < N ==> coeffs[k] == 0.0)
      && 0.0 < glr <= RATE_CEILING
      && HistoryLags()
      && CurriculumOrdered(|losses|)
    }

    /**
     * The loss history runs one epoch behind the losses computed after each
     * step: it starts with the initial 0 and then holds every computed loss
     * but the latest, which is kept in `l`.
     */
    ghost predicate HistoryLags()
      reads this
    {
      && |computed| == |losses|
      && (|losses| > 0 ==> losses[0] == 0.0)
      && (forall j :: 1 <= j < |losses| ==> losses[j] == computed[j - 1])
      && l == (if |computed| == 0 then 0.0 else computed[|computed| - 1])
    }

    /**
     * The curriculum state after `done` epochs: the threshold is the initial
     * one; convergence events fell on multiples of CONV_PERIOD before
     * `done`, the first no earlier than INITIAL_LAST_CONV + CONV_GAP +
     * CONV_PERIOD and each at least CONV_GAP + CONV_PERIOD after the
     * previous; `lastConv` is the latest event; and each event unlocked one
     * more term until all N were active.
     */
    ghost predicate CurriculumOrdered(done: nat)
      reads this
    {
      && threshold == INITIAL_THRESHOLD
      && EventsSpaced(events, done)
      && lastConv == LastEvent(events)
      && enabled == Min(N, INITIAL_ENABLED + |events|)
    }

    /** The gradient after damping and clipping, as one epoch computes it. */
    ghost function Direction(c: seq<real>, active: nat): seq<real>
      requires Collaborators() && |c| == N
    {
      var g := Mul(Gradient(target, c, active), damping);
      assert EuclideanAt(norm, g);
      Clip(g, norm(g))
    }

    /** Damping and clipping keep the inactive slots' zero gradient at zero. */
    lemma DirectionVanishesWhenInactive(c: seq<real>, active: nat)
      requires Collaborators() && |c| == N
      ensures forall k :: active <= k < N ==> Direction(c, active)[k] == 0.0
    {
      var g := Mul(Gradient(target, c, active), damping);
      assert EuclideanAt(norm, g);
      forall k | active <= k < N
        ensures g[k] == 0.0
      {
        GradientVanishesWhenInactive(target, c, active, k);
      }
    }

    /** The trainer's loop variables as a value. */
    ghost function Snapshot(): State
      reads this
    {
      State(coeffs, glr, l, losses, enabled, threshold, lastConv)
    }

    /**
     * The state after epoch `e`, written as one transition: step the
     * coefficients along the damped, clipped gradient; compute the new loss
     * with the terms active before the curriculum runs; append the previous
     * loss to the history; schedule the rate; on a convergence event record
     * the epoch, unlock a term while fewer than N are active and run the
     * threshold retune. The retune never changes the threshold, and the
     * history grows by one entry per epoch.
     */
    ghost function NextState(s: State, e: nat): (r: State)
      requires Collaborators() && |s.coeffs| == N
      ensures |r.coeffs| == N && |r.losses| == |s.losses| + 1
      ensures r.threshold == s.threshold
      ensures s.enabled <= r.enabled && (s.enabled <= N ==> r.enabled <= N)
    {
      var c := Sub(s.coeffs, Scale(Direction(s.coeffs, s.enabled), s.glr));
      var ln := MeanSquaredError(target, c, s.enabled);
      var dl := ln - s.l;
      var due := ConvergenceDue(e, s.lastConv, dl, s.threshold);
      var active := if due && s.enabled < N then s.enabled + 1 else s.enabled;
      State(c, NextRate(s.glr, dl, e, s.threshold), ln, s.losses + [s.l], active,
            if due then Retune(dl, s.threshold, active) else s.threshold,
            if due then e else s.lastConv)
    }

    /** The state after `n` epochs numbered from 0, starting from `s`. */
    ghost function Run(s: State, n: nat): (r: State)
      requires Collaborators() && |s.coeffs| == N
      ensures |r.coeffs| == N && |r.losses| == |s.losses| + n
      ensures r.threshold == s.threshold
      ensures s.enabled <= r.enabled && (s.enabled <= N ==> r.enabled <= N)
    {
      if n == 0 then s else NextState(Run(s, n - 1), n - 1)
    }

    /** A state related to `s` as one epoch relates them is the transition of `s`. */
    lemma NextStateFrom(s: State, e: nat, r: State)
      requires Collaborators() && |s.coeffs| == N
      requires r.coeffs == Sub(s.coeffs, Scale(Direction(s.coeffs, s.enabled), s.glr))
      requires r.l == MeanSquaredError(target, r.coeffs, s.enabled)
      requires r.losses == s.losses + [s.l]
      requires r.glr == NextRate(s.glr, r.l - s.l, e, s.threshold)
      requires var due := ConvergenceDue(e, s.lastConv, r.l - s.l, s.threshold);
        && r.lastConv == (if due then e else s.lastConv)
        && r.enabled == (if due && s.enabled < N then s.enabled + 1 else s.enabled)
      requires r.threshold == s.threshold
      ensures r == NextState(s, e)
    {
    }

    /** A run of `n` epochs followed by the transition of epoch `n` is a run of `n + 1` epochs. */
    lemma RunStep(start: State, n: nat, before: State, after: State)
      requires Collaborators() && |start.coeffs| == N
      requires before == Run(start, n) && after == NextState(before, n)
      ensures after == Run(start, n + 1)
    {
    }

    /** A trainer at the start of a run: zero coefficients, empty history. */
    constructor (target: real -> real, damping: seq<real>, norm: seq<real> -> real)
      requires |damping| == N && forall k :: 0 <= k < N ==> damping[k] > 0.0
      requires forall v :: EuclideanAt(norm, v)
      ensures Valid()
      ensures this.target == target && this.damping == damping && this.norm == norm
      ensures coeffs == seq(N, _ => 0.0) && glr == INITIAL_RATE && l == 0.0 && losses == []
      ensures enabled == INITIAL_ENABLED && threshold == INITIAL_THRESHOLD && lastConv == INITIAL_LAST_CONV
    {
      this.target := target;
      this.damping := damping;
      this.norm := norm;
      coeffs := seq(N, _ => 0.0);
      glr := INITIAL_RATE;
      l := 0.0;
      losses := [];
      enabled := INITIAL_ENABLED;
      threshold := INITIAL_THRESHOLD;
      lastConv := INITIAL_LAST_CONV;
      computed := [];
      events := [];
    }

    /** `infer`: fills the feature array for the active powers, then takes the dot product. */
    method Infer(c: seq<real>, x: real) returns (y: real)
      requires |c| == N && enabled <= N
      ensures y == Eval(c, enabled, x)
    {
      var inputData := new real[N](_ => 0.0);
      for i := 0 to enabled
        invariant forall j :: 0 <= j < N ==> inputData[j] == (if j < i then Pow(x, j) else 0.0)
      {
        inputData[i] := Pow(x, i);
      }
      assert inputData[..] == Features(N, enabled, x);
      y := Dot(c, inputData[..]);
    }

    /** The MSE closure: accumulates the squared residuals over the grid, then averages. */
    method Mse(c: seq<real>) returns (m: real)
      requires |c| == N && enabled <= N
      ensures m == MeanSquaredError(target, c, enabled)
    {
      var total := 0.0;
      for i := 0 to NUM_POINTS
        invariant total == SquaredResiduals(target, c, enabled, i)
      {
        var x := i as real * STEP;
        var y := Infer(c, x);
        var d := y - target(x);
        total := total + d * d;
      }
      m := total / NUM_POINTS as real;
    }

    /** The gradient closure: loss after nudging coefficient `k` by H, minus the loss, over H. */
    method Grad(c: seq<real>, k: nat) returns (g: real)
      requires |c| == N && k < N && enabled <= N
      ensures g == PartialDerivative(target, c, enabled, k)
    {
      var cPlus := c[k := c[k] + H];
      var plus := Mse(cPlus);
      var base := Mse(c);
      g := (plus - base) / H;
    }

    /** The per-coefficient loop of an epoch: every slot's partial derivative, damped. */
    method DampedGradient(c: seq<real>) returns (grads: seq<real>)
      requires Collaborators() && |c| == N && enabled <= N
      ensures grads == Mul(Gradient(target, c, enabled), damping)
    {
      ghost var want := Mul(Gradient(target, c, enabled), damping);
      var buffer := new real[N](_ => 0.0);
      for k := 0 to N
        invariant forall j :: 0 <= j < k ==> buffer[j] == want[j]
      {
        var g := Grad(c, k);
        buffer[k] := g * damping[k];
      }
      grads := buffer[..];
    }

    /**
     * The curriculum block, run on every CONV_PERIOD-th epoch: on a
     * convergence event it records the epoch and unlocks one more term
     * while fewer than N are active. The threshold retune runs only inside
     * the event branch, where `dl > threshold`, so it never changes the
     * threshold.
     */
    method Curriculum(e: nat, dl: real)
      requires CurriculumOrdered(e)
      modifies this`lastConv, this`enabled, this`threshold, this`events
      ensures CurriculumOrdered(e + 1)
      ensures var due := ConvergenceDue(e, old(lastConv), dl, old(threshold));
        && lastConv == (if due then e else old(lastConv))
        && enabled == (if due && old(enabled) < N then old(enabled) + 1 else old(enabled))
        && events == (if due then old(events) + [e] else old(events))
      ensures threshold == old(threshold)
    {
      EventsSpacedLater(events, e);
      if e % CONV_PERIOD == 0 {
        if dl > threshold && e - lastConv > CONV_GAP {
          EventsSpacedExtend(events, e, dl, threshold);
          lastConv := e;
          events := events + [e];
          if enabled < N {
            enabled := enabled + 1;
          }
          threshold := Retune(dl, threshold, enabled);
        }
      }
    }

    /**
     * One epoch `e`: damped and clipped gradient, step, new loss, loss
     * history one epoch behind, learning-rate schedule, curriculum.
     * Coefficients outside the active terms never move.
     */
    method Epoch(e: nat)
      requires Valid() && e == |losses|
      modifies this
      ensures Valid()
      ensures coeffs == Sub(old(coeffs), Scale(Direction(old(coeffs), old(enabled)), old(glr)))
      ensures forall k :: old(enabled) <= k < N ==> coeffs[k] == old(coeffs)[k]
      ensures l == MeanSquaredError(target, coeffs, old(enabled))
      ensures losses == old(losses) + [old(l)]
      ensures computed == old(computed) + [l]
      ensures glr == NextRate(old(glr), l - old(l), e, old(threshold))
      ensures var due := ConvergenceDue(e, old(lastConv), l - old(l), old(threshold));
        && lastConv == (if due then e else old(lastConv))
        && enabled == (if due && old(enabled) < N then old(enabled) + 1 else old(enabled))
        && events == (if due then old(events) + [e] else old(events))
      ensures threshold == old(threshold)
    {
      StepCoefficients();
      var dl := RecordLoss();
      glr := NextRate(glr, dl, e, threshold);
      Curriculum(e, dl);
    }

    /**
     * The gradient step of an epoch: every slot's damped partial derivative,
     * clipped by norm, times the learning rate, subtracted from the
     * coefficients. Inactive slots have a zero gradient and do not move.
     */
    method StepCoefficients()
      requires Collaborators() && |coeffs| == N && enabled <= N
      modifies this`coeffs
      ensures coeffs == Sub(old(coeffs), Scale(Direction(old(coeffs), enabled), glr))
      ensures forall k :: enabled <= k < N ==> coeffs[k] == old(coeffs)[k]
    {
      var grads := DampedGradient(coeffs);
      var gNorm := norm(grads);
      assert EuclideanAt(norm, grads);
      grads := Clip(grads, gNorm);
      assert grads == Direction(coeffs, enabled);
      DirectionVanishesWhenInactive(coeffs, enabled);
      StepKeepsZeroSlots(coeffs, grads, glr, enabled);
      coeffs := Sub(coeffs, Scale(grads, glr));
    }

    /**
     * The loss bookkeeping of an epoch: the new loss is computed, the
     * previous one is appended to the history, and the change is returned.
     */
    method RecordLoss() returns (dl: real)
      requires |coeffs| == N && enabled <= N && HistoryLags()
      modifies this`l, this`losses, this`computed
      ensures HistoryLags()
      ensures l == MeanSquaredError(target, coeffs, enabled)
      ensures losses == old(losses) + [old(l)]
      ensures computed == old(computed) + [l]
      ensures dl == l - old(l)
    {
      var ln := Mse(coeffs);
      losses := losses + [l];
      computed := computed + [ln];
      dl := ln - l;
      l := ln;
    }

    /** The epoch loop of the entry point, run on a fresh trainer; the program runs 5000 epochs. */
    method Train(epochs: nat)
      requires Valid() && losses == []
      modifies this
      ensures Valid()
      ensures |losses| == epochs
      ensures old(enabled) <= enabled <= N
      ensures threshold == old(threshold)
      ensures forall i :: 1 <= i < |events| ==> events[i] - events[i - 1] >= CONV_GAP + CONV_PERIOD
      ensures Snapshot() == Run(old(Snapshot()), epochs)
    {
      ghost var start := Snapshot();
      for e := 0 to epochs
        invariant Valid() && |losses| == e
        invariant Snapshot() == Run(start, e)
      {
        ghost var before := Snapshot();
        Advance(e);
        RunStep(start, e, before, Snapshot());
      }
      ghost var finish := Run(start, epochs);
      assert start == old(Snapshot()) && Snapshot() == finish;
      assert enabled == finish.enabled && threshold == finish.threshold && losses == finish.losses;
    }

    /** Epoch `e` as a transition of the loop variables. */
    method Advance(e: nat)
      requires Valid() && e == |losses|
      modifies this
      ensures Valid() && |losses| == e + 1
      ensures Snapshot() == NextState(old(Snapshot()), e)
    {
      ghost var before := Snapshot();
      Epoch(e);
      NextStateFrom(before, e, Snapshot());
    }
  }
}
