/**
 * The data preparation of the loss-curve report: the per-epoch changes of
 * the loss, their outlier clamp by the interquartile-range rule, and the
 * warm-up skip. The report's markup is not part of this model.
 */
module LossCurve {

  datatype Option<T> = None | Some(value: T)

  /** Threshold line drawn when the caller gives none. */
  const DEFAULT_THRESHOLD: real := 1e-5
  /** Multiple of the interquartile range allowed beyond each quartile. */
  const IQR_FACTOR: real := 1.5
  /** At most this many leading changes are skipped as warm-up... */
  const MAX_SKIP: nat := 10
  /** ... and at most one in SKIP_FRACTION of the history. */
  const SKIP_FRACTION: nat := 10

  ghost predicate Sorted(s: seq<real>)
  {
    forall i, j :: 0 <= i <= j < |s| ==> s[i] <= s[j]
  }

  /** The epoch numbers `lo, lo + 1, ..., hi - 1` (empty when `hi <= lo`). */
  function Range(lo: nat, hi: nat): (r: seq<nat>)
    ensures |r| == if lo <= hi then hi - lo else 0
    ensures forall i :: 0 <= i < |r| ==> r[i] == lo + i
    decreases hi - lo
  {
    if hi <= lo then [] else [lo] + Range(lo + 1, hi)
  }

  /** The change of the loss from each epoch to the next. */
  method Derivatives(losses: seq<real>) returns (d: seq<real>)
    ensures |d| == if |losses| == 0 then 0 else |losses| - 1
    ensures forall i :: 1 <= i < |losses| ==> d[i - 1] == losses[i] - losses[i - 1]
  {
    d := [];
    var i := 1;
    while i < |losses|
      invariant 1 <= i <= if |losses| == 0 then 1 else |losses|
      invariant |d| == i - 1
      invariant forall j :: 1 <= j < i ==> d[j - 1] == losses[j] - losses[j - 1]
    {
      d := d + [losses[i] - losses[i - 1]];
      i := i + 1;
    }
  }

  /** Sorts `a` in place, ascending, by inserting each element into the sorted prefix. */
  method SortInPlace(a: array<real>)
    modifies a
    ensures Sorted(a[..])
    ensures multiset(a[..]) == multiset(old(a[..]))
  {
    var i := 0;
    while i < a.Length
      invariant 0 <= i <= a.Length
      invariant forall p, q :: 0 <= p < q < i ==> a[p] <= a[q]
      invariant multiset(a[..]) == multiset(old(a[..]))
    {
      var j := i;
      while 0 < j && a[j] < a[j - 1]
        invariant 0 <= j <= i
        invariant forall p, q :: 0 <= p < q <= i && p != j && q != j ==> a[p] <= a[q]
        invariant forall q :: j < q <= i ==> a[j] < a[q]
        invariant multiset(a[..]) == multiset(old(a[..]))
      {
        a[j], a[j - 1] := a[j - 1], a[j];
        j := j - 1;
      }
      i := i + 1;
    }
  }

  /** The quartile positions in a sorted list of `m` values. */
  function QuartileIndices(m: nat): (q: (nat, nat))
    requires m >= 1
    ensures q.0 == m / 4 && q.1 == 3 * m / 4
    ensures q.0 <= q.1 < m
  {
    (m / 4, 3 * m / 4)
  }

  /** The quartiles of a sorted list and the outlier bounds derived from them. */
  datatype Bounds = Bounds(q1: real, q3: real, iqr: real, lower: real, upper: real)

  /**
   * The interquartile-range bounds of a sorted, non-empty list: the
   * quartiles are the elements at positions m/4 and 3m/4, and the bounds
   * lie IQR_FACTOR interquartile ranges beyond them.
   */
  function OutlierBounds(sorted: seq<real>): (b: Bounds)
    requires |sorted| >= 1 && Sorted(sorted)
    ensures b.q1 == sorted[|sorted| / 4] && b.q3 == sorted[3 * |sorted| / 4] && b.iqr == b.q3 - b.q1
    ensures b.q1 in sorted && b.q3 in sorted
    ensures b.q1 <= b.q3 && b.iqr >= 0.0
    ensures b.lower <= b.q1 && b.q3 <= b.upper && b.lower <= b.upper
    ensures b.lower == b.q1 - IQR_FACTOR * (b.q3 - b.q1) && b.upper == b.q3 + IQR_FACTOR * (b.q3 - b.q1)
  {
    var (i1, i3) := QuartileIndices(|sorted|);
    var q1 := sorted[i1];
    var q3 := sorted[i3];
    var iqr := q3 - q1;
    Bounds(q1, q3, iqr, q1 - IQR_FACTOR * iqr, q3 + IQR_FACTOR * iqr)
  }

  /** `d` raised to at least `lo`, then lowered to at most `hi`. */
  function Clamp(d: real, lo: real, hi: real): (r: real)
    ensures r <= hi
    ensures lo <= hi ==> lo <= r
    ensures lo <= d <= hi ==> r == d
    ensures lo <= hi && d < lo ==> r == lo
    ensures d > hi ==> r == hi
  {
    var raised := if d < lo then lo else d;
    if raised > hi then hi else raised
  }

  /** Every value clamped into `[lo, hi]`. */
  function ClampAll(ds: seq<real>, lo: real, hi: real): (r: seq<real>)
    ensures |r| == |ds|
    ensures forall i :: 0 <= i < |ds| ==> r[i] == Clamp(ds[i], lo, hi)
  {
    seq(|ds|, i requires 0 <= i < |ds| => Clamp(ds[i], lo, hi))
  }

  /** The number of leading changes treated as warm-up for a history of `len` losses. */
  function SkipInitial(len: nat): (k: nat)
    ensures k <= MAX_SKIP && k * SKIP_FRACTION <= len
    ensures k == MAX_SKIP || k == len / SKIP_FRACTION
  {
    if MAX_SKIP < len / SKIP_FRACTION then MAX_SKIP else len / SKIP_FRACTION
  }

  /** `s` without its first `k` elements; empty when `s` is shorter. */
  function Skip<T>(s: seq<T>, k: nat): (r: seq<T>)
    ensures |r| == if k <= |s| then |s| - k else 0
    ensures forall i :: 0 <= i < |r| ==> r[i] == s[k + i]
  {
    if k <= |s| then s[k..] else []
  }

  /** The threshold line: the caller's, or DEFAULT_THRESHOLD. */
  function ThresholdValue(threshold: Option<real>): (v: real)
    ensures threshold.Some? ==> v == threshold.value
    ensures threshold.None? ==> v == DEFAULT_THRESHOLD
  {
    match threshold
    case Some(t) => t
    case None => DEFAULT_THRESHOLD
  }

  /** Everything the loss-curve report is drawn from. */
  datatype LossCurveData = LossCurveData(
    epochs: seq<nat>,
    derivatives: seq<real>,
    derivativeEpochs: seq<nat>,
    sorted: seq<real>,
    bounds: Bounds,
    filtered: seq<real>,
    skip: nat,
    stableDerivatives: seq<real>,
    stableEpochs: seq<nat>,
    threshold: real)

  /**
   * The computations of the loss-curve report ahead of its markup. The
   * quartile lookup needs at least one loss change, so at least two losses.
   */
  method Prepare(losses: seq<real>, threshold: Option<real>) returns (data: LossCurveData)
    requires |losses| >= 2
    ensures |data.epochs| == |losses| && forall i :: 0 <= i < |losses| ==> data.epochs[i] == i
    ensures |data.derivatives| == |losses| - 1
    ensures forall i :: 1 <= i < |losses| ==> data.derivatives[i - 1] == losses[i] - losses[i - 1]
    ensures |data.derivativeEpochs| == |data.derivatives|
    ensures forall i :: 0 <= i < |data.derivativeEpochs| ==> data.derivativeEpochs[i] == i + 1
    ensures Sorted(data.sorted) && multiset(data.sorted) == multiset(data.derivatives)
    ensures data.bounds == OutlierBounds(data.sorted)
    ensures data.bounds.lower <= data.bounds.upper
    ensures data.filtered == ClampAll(data.derivatives, data.bounds.lower, data.bounds.upper)
    ensures |data.filtered| == |data.derivatives|
    ensures forall i :: 0 <= i < |data.filtered| ==>
      data.bounds.lower <= data.filtered[i] <= data.bounds.upper &&
      (data.bounds.lower <= data.derivatives[i] <= data.bounds.upper ==> data.filtered[i] == data.derivatives[i]) &&
      (data.derivatives[i] < data.bounds.lower ==> data.filtered[i] == data.bounds.lower) &&
      (data.derivatives[i] > data.bounds.upper ==> data.filtered[i] == data.bounds.upper)
    ensures data.skip == SkipInitial(|losses|) && data.skip <= MAX_SKIP
    ensures data.stableDerivatives == data.filtered[data.skip..]
    ensures data.stableEpochs == data.derivativeEpochs[data.skip..]
    ensures |data.stableDerivatives| == |data.stableEpochs| == |losses| - 1 - data.skip
    ensures data.threshold == ThresholdValue(threshold)
  {
    var epochs := Range(0, |losses|);
    var derivatives := Derivatives(losses);
    var derivativeEpochs := Range(1, |losses|);

    var buffer := new real[|derivatives|](i requires 0 <= i < |derivatives| => derivatives[i]);
    assert buffer[..] == derivatives;
    SortInPlace(buffer);
    var sorted := buffer[..];

    var bounds := OutlierBounds(sorted);
    var filtered := ClampAll(derivatives, bounds.lower, bounds.upper);

    var skip := SkipInitial(|losses|);
    var stableDerivatives := Skip(filtered, skip);
    var stableEpochs := Skip(derivativeEpochs, skip);

    data := LossCurveData(epochs, derivatives, derivativeEpochs, sorted, bounds, filtered,
                          skip, stableDerivatives, stableEpochs, ThresholdValue(threshold));
  }
}
