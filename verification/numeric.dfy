/** The numeric helpers of `numeric.rs`: squaring and raising to an integer power.
    Floating-point numbers are modelled as mathematical reals. */
module Numeric {

  /** Bounds of Rust's `i32`. */
  const I32_MIN: int := -0x8000_0000
  const I32_MAX: int := 0x7FFF_FFFF

  /** Reference definition: x raised to a natural power, by repeated multiplication. */
  function Pow(x: real, n: nat): real
  {
    if n == 0 then 1.0 else x * Pow(x, n - 1)
  }

  /** `sqr`: the square of a number, never negative. */
  function Sqr(x: real): (r: real)
    ensures r >= 0.0
  {
    x * x
  }

  /** Absolute value of a real (the `abs` wrapper of `f64::abs`). */
  function Abs(x: real): (r: real)
    ensures r >= 0.0
    ensures r == x || r == -x
    ensures r == 0.0 <==> x == 0.0
  {
    if x < 0.0 then -x else x
  }

  /** `powi`: exponentiation by squaring with a reciprocal branch for negative
      exponents. The exponent is an `i32`; negating `i32::MIN` overflows, so that
      exponent is excluded. A negative exponent divides one by the positive power,
      which is infinite in floating point for a zero base, so the base must then be
      nonzero. The squared base `x * x` of the recursive call is `sqr(x)`. */
  function Powi(x: real, n: int): real
    requires I32_MIN < n <= I32_MAX
    requires n < 0 ==> x != 0.0
    decreases if n < 0 then 1 - n else n
  {
    if n == 0 then 1.0
    else if n == 1 then x
    else if n >= 2 then Powi(x, n % 2) * Powi(x * x, n / 2)
    else Reciprocal(Powi(x, -n))
  }

  /** One divided by a number. Real division needs a nonzero divisor; the zero
      case never arises from `powi` (see `NumericLemmas.PowiNonzero`) and only
      keeps this helper total. */
  function Reciprocal(y: real): real
  {
    if y == 0.0 then 0.0 else 1.0 / y
  }

  /** For every natural exponent in `i32` range, `powi` computes x^n. */
  lemma {:induction false} PowiIsPow(x: real, n: int)
    requires 0 <= n <= I32_MAX
    ensures Powi(x, n) == Pow(x, n)
    decreases n
  {
    if n >= 2 {
      var q, m := n / 2, n % 2;
      PowiIsPow(x, m);
      PowiIsPow(x * x, q);
      var a, b := Powi(x, m), Powi(x * x, q);
      assert Powi(x, n) == a * b;
      MulCongruence(a, Pow(x, m), b, Pow(x * x, q));
      PowSplit(x, n);
    } else if n == 1 {
      PowOne(x);
    }
  }

  /** The first power of a number is the number. */
  lemma PowOne(x: real)
    ensures Pow(x, 1) == x
  {
    assert Pow(x, 1) == x * Pow(x, 0);
  }

  /** Equal factors give equal products. */
  lemma MulCongruence(a: real, a': real, b: real, b': real)
    requires a == a' && b == b'
    ensures a * b == a' * b'
  {
  }

  /** Exponentiation by squaring on the reference power:
      x^n == x^(n%2) * (x*x)^(n/2). */
  lemma PowSplit(x: real, n: nat)
    ensures Pow(x, n) == Pow(x, n % 2) * Pow(x * x, n / 2)
  {
    var q, m := n / 2, n % 2;
    assert n == m + 2 * q;
    PowOfSquare(x, q);
    PowAdd(x, m, 2 * q);
  }

  /** Powers add: x^(a+b) == x^a * x^b. */
  lemma {:induction false} PowAdd(x: real, a: nat, b: nat)
    ensures Pow(x, a + b) == Pow(x, a) * Pow(x, b)
    decreases a
  {
    if a > 0 {
      PowAdd(x, a - 1, b);
    }
  }

  /** Squaring the base doubles the exponent: (x*x)^m == x^(2m). */
  lemma {:induction false} PowOfSquare(x: real, m: nat)
    ensures Pow(x * x, m) == Pow(x, 2 * m)
    decreases m
  {
    if m > 0 {
      PowOfSquare(x, m - 1);
      PowAdd(x, 2, 2 * (m - 1));
    }
  }

  /** A nonzero base has a nonzero power. */
  lemma {:induction false} PowNonzero(x: real, n: nat)
    requires x != 0.0
    ensures Pow(x, n) != 0.0
    decreases n
  {
    if n > 0 {
      PowNonzero(x, n - 1);
      ProductNonzero(x, Pow(x, n - 1));
    }
  }

  /** Helper facts of real multiplication that the solver does not find unaided. */
  lemma ProductNonzero(a: real, b: real)
    requires a != 0.0 && b != 0.0
    ensures a * b != 0.0
  {
  }

  lemma ProductPositive(a: real, b: real)
    requires a > 0.0 && b > 0.0
    ensures a * b > 0.0
  {
  }

  /** The square of a nonzero number is positive. */
  lemma SqrPositive(x: real)
    requires x != 0.0
    ensures Sqr(x) > 0.0
  {
    PowNonzero(x, 2);
    assert Pow(x, 2) == x * Pow(x, 1) == x * (x * Pow(x, 0));
    assert Sqr(x) == Pow(x, 2);
  }

  /** A product with a positive factor keeps the sign of the other factor. */
  lemma DivideByPositive(n: real, x: real)
    requires n > 0.0 && n * x >= 0.0
    ensures x >= 0.0
  {
    if x < 0.0 {
      ProductPositive(n, -x);
    }
  }

  /** Binomial expansion of a square. */
  lemma SqrExpand(a: real, b: real)
    ensures Sqr(a + b) == Sqr(a) + 2.0 * a * b + Sqr(b)
  {
  }

  /** Only zero has a square that is not positive. */
  lemma SqrZero(s: real)
    requires Sqr(s) <= 0.0
    ensures s == 0.0
  {
    if s != 0.0 {
      SqrPositive(s);
    }
  }
}
