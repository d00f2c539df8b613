/**
 * Fixed-length real vectors, standing in for the tensor library the trainer
 * uses for its coefficient and gradient vectors (dot product, squared norm,
 * scaling, element-wise difference and product).
 */
module RealVectors {

  /** The dot product of two vectors of equal length. */
  function Dot(a: seq<real>, b: seq<real>): real
    requires |a| == |b|
  {
    if |a| == 0 then 0.0 else a[0] * b[0] + Dot(a[1..], b[1..])
  }

  /** The square of the Euclidean norm. */
  function SumSq(v: seq<real>): (r: real)
    ensures r >= 0.0
  {
    if |v| == 0 then 0.0
    else
      assert v[0] * v[0] >= 0.0 by { SquareNonNegative(v[0]); }
      v[0] * v[0] + SumSq(v[1..])
  }

  lemma SquareNonNegative(x: real)
    ensures x * x >= 0.0
  {
    if x < 0.0 {
      assert x * x == (-x) * (-x);
    }
  }

  /** Every entry multiplied by the scalar `s`. */
  function Scale(v: seq<real>, s: real): (r: seq<real>)
    ensures |r| == |v|
    ensures forall i :: 0 <= i < |v| ==> r[i] == v[i] * s
  {
    if |v| == 0 then [] else [v[0] * s] + Scale(v[1..], s)
  }

  /** Element-wise difference. */
  function Sub(a: seq<real>, b: seq<real>): (r: seq<real>)
    requires |a| == |b|
  {
    seq(|a|, i requires 0 <= i < |a| => a[i] - b[i])
  }

  /** Element-wise product. */
  function Mul(a: seq<real>, b: seq<real>): (r: seq<real>)
    requires |a| == |b|
  {
    seq(|a|, i requires 0 <= i < |a| => a[i] * b[i])
  }

  /** Scaling a vector by `s` scales its squared norm by `s * s`. */
  lemma {:induction false} SumSqScale(v: seq<real>, s: real)
    ensures SumSq(Scale(v, s)) == s * s * SumSq(v)
  {
    if |v| > 0 {
      var w := Scale(v, s);
      assert w[1..] == Scale(v[1..], s);
      SumSqScale(v[1..], s);
      var x, rest := v[0], SumSq(v[1..]);
      assert SumSq(w) == (x * s) * (x * s) + s * s * rest;
      ScaleHead(x, s, rest);
    }
  }

  lemma ScaleHead(x: real, s: real, rest: real)
    ensures (x * s) * (x * s) + s * s * rest == s * s * (x * x + rest)
  {
  }

  /**
   * A dot product only sees the entries of `a` where `b` is non-zero:
   * vectors that differ only where `b` vanishes give the same product.
   */
  lemma {:induction false} DotAgree(a: seq<real>, a': seq<real>, b: seq<real>)
    requires |a| == |a'| == |b|
    requires forall i :: 0 <= i < |b| && b[i] != 0.0 ==> a[i] == a'[i]
    ensures Dot(a, b) == Dot(a', b)
  {
    if |a| > 0 {
      DotAgree(a[1..], a'[1..], b[1..]);
      if b[0] != 0.0 {
        assert a[0] == a'[0];
      }
    }
  }

  /** The dot product with an all-zero vector is zero. */
  lemma {:induction false} DotZero(a: seq<real>, b: seq<real>)
    requires |a| == |b|
    requires forall i :: 0 <= i < |a| ==> a[i] == 0.0
    ensures Dot(a, b) == 0.0
  {
    if |a| > 0 {
      DotZero(a[1..], b[1..]);
    }
  }

  /** A step `c - d * rate` leaves alone every entry of `c` from `lo` on where `d` is zero. */
  lemma StepKeepsZeroSlots(c: seq<real>, d: seq<real>, rate: real, lo: nat)
    requires |c| == |d|
    requires forall k :: lo <= k < |d| ==> d[k] == 0.0
    ensures forall k :: lo <= k < |c| ==> Sub(c, Scale(d, rate))[k] == c[k]
  {
  }
}
