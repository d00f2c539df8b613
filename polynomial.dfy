/**
 * The polynomial model of the trainer: a coefficient vector, one entry per
 * degree, evaluated against a feature vector in which only the first
 * `enabled` powers of the input are switched on.
 */
module Polynomial {
  import opened RealVectors

  /** `x` to the natural power `i`; `x^0` is 1 even at `x = 0`. */
  function Pow(x: real, i: nat): real
  {
    if i == 0 then 1.0 else x * Pow(x, i - 1)
  }

  /** The `n` features of input `x`: `x^i` in each active slot `i < enabled`, 0 in the others. */
  function Features(n: nat, enabled: nat, x: real): seq<real>
  {
    seq(n, i requires 0 <= i < n => if i < enabled then Pow(x, i) else 0.0)
  }

  /** The model's output at `x`: the coefficients dotted with the features. */
  function Eval(c: seq<real>, enabled: nat, x: real): real
  {
    Dot(c, Features(|c|, enabled, x))
  }

  /**
   * Inactive terms are neutral: two coefficient vectors that agree on the
   * active slots give the same output, whatever their inactive entries hold.
   */
  lemma EvalIgnoresInactive(c: seq<real>, c': seq<real>, enabled: nat, x: real)
    requires |c| == |c'|
    requires forall i :: 0 <= i < |c| && i < enabled ==> c[i] == c'[i]
    ensures Eval(c, enabled, x) == Eval(c', enabled, x)
  {
    var f := Features(|c|, enabled, x);
    assert Features(|c'|, enabled, x) == f;
    DotAgree(c, c', f);
  }

  /** The all-zero coefficient vector evaluates to 0 everywhere. */
  lemma EvalZero(c: seq<real>, enabled: nat, x: real)
    requires forall i :: 0 <= i < |c| ==> c[i] == 0.0
    ensures Eval(c, enabled, x) == 0.0
  {
    DotZero(c, Features(|c|, enabled, x));
  }

  /** With one active term the model is the constant `c[0]`. */
  lemma EvalSingleTerm(c: seq<real>, x: real)
    requires |c| >= 1
    ensures Eval(c, 1, x) == c[0]
  {
    var f := Features(|c|, 1, x);
    assert f[0] == 1.0;
    assert forall i :: 0 <= i < |c| - 1 ==> f[1..][i] == 0.0;
    DotZero(f[1..], c[1..]);
    DotSymmetric(c[1..], f[1..]);
  }

  lemma {:induction false} DotSymmetric(a: seq<real>, b: seq<real>)
    requires |a| == |b|
    ensures Dot(a, b) == Dot(b, a)
  {
    if |a| > 0 {
      DotSymmetric(a[1..], b[1..]);
    }
  }
}

/**
 * The integer factorial of the entry point, computed by an accumulating loop
 * over 32-bit signed integers.
 */
module Factorial {

  newtype i32 = x: int | -0x8000_0000 <= x < 0x8000_0000

  /** The result of an `i32` computation that may overflow. */
  datatype Checked = Value(v: i32) | Overflow

  /** The product `1 * 2 * ... * n`; 1 for every `n <= 0`, as an empty range gives. */
  function Factorial(n: int): nat
  {
    if n <= 0 then 1 else n * Factorial(n - 1)
  }

  /** The factorial grows with its argument. */
  lemma {:induction false} FactorialMonotone(m: int, n: int)
    requires m <= n
    ensures Factorial(m) <= Factorial(n)
    decreases n - m
  {
    if m < n {
      FactorialMonotone(m, n - 1);
      assert Factorial(n) == (if n <= 0 then 1 else n * Factorial(n - 1));
    }
  }

  /** 12! is the largest factorial an `i32` holds; 13! is past its maximum. */
  lemma FactorialLimit()
    ensures Factorial(12) == 479001600 < 0x8000_0000
    ensures Factorial(13) == 6227020800 >= 0x8000_0000
  {
    assert Factorial(1) == 1;
    assert Factorial(2) == 2;
    assert Factorial(3) == 6;
    assert Factorial(4) == 24;
    assert Factorial(5) == 120;
    assert Factorial(6) == 720;
    assert Factorial(7) == 5040;
    assert Factorial(8) == 40320;
    assert Factorial(9) == 362880;
    assert Factorial(10) == 3628800;
    assert Factorial(11) == 39916800;
    assert Factorial(12) == 479001600;
  }

  /** Within `1 <= i`, `i!` fits in an `i32` exactly when `i <= 12`. */
  lemma FitsInI32(i: int)
    requires 1 <= i
    ensures Factorial(i) < 0x8000_0000 <==> i <= 12
  {
    FactorialLimit();
    if i <= 12 {
      FactorialMonotone(i, 12);
    } else {
      FactorialMonotone(13, i);
    }
  }

  /**
   * `fac`: multiplies an accumulator by each of `1..n+1`. Arithmetic overflow
   * of `n + 1` or of the product is a panic, reported as `Overflow`; the
   * result is exact precisely when `n <= 12`.
   */
  method Fac(n: i32) returns (r: Checked)
    ensures r.Value? <==> n <= 12
    ensures r.Value? ==> r.v as int == Factorial(n as int)
  {
    if n == 0x7fff_ffff {
      // computing the range end `n + 1` overflows
      return Overflow;
    }
    var acc: i32 := 1;
    var i: int := 1;
    while i < n as int + 1
      invariant 1 <= i <= 13
      invariant i <= n as int + 1 || i == 1
      invariant acc as int == Factorial(i - 1)
    {
      var p := acc as int * i;
      FitsInI32(i);
      if p >= 0x8000_0000 {
        return Overflow;
      }
      acc := p as i32;
      i := i + 1;
    }
    r := Value(acc);
  }
}
