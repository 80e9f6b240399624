/** Properties of `sqr` and `powi` stated against the reference power. */
module NumericLemmas {
  import opened Numeric

  /** `sqr` is the second power. */
  lemma SqrIsPow(x: real)
    ensures Sqr(x) == Pow(x, 2)
  {
    assert Pow(x, 2) == x * Pow(x, 1) == x * (x * Pow(x, 0));
  }

  /** For a negative exponent, `powi` is the reciprocal of the positive power. */
  lemma PowiNegative(x: real, n: int)
    requires I32_MIN < n < 0
    requires x != 0.0
    ensures Pow(x, -n) != 0.0 && Powi(x, n) == 1.0 / Pow(x, -n)
  {
    PowiReciprocal(x, n);
    PowiIsPow(x, -n);
  }

  /** Over a nonzero base, opposite exponents give reciprocal powers. */
  lemma PowiInverse(x: real, n: int)
    requires I32_MIN < n < 0
    requires x != 0.0
    ensures Powi(x, n) * Powi(x, -n) == 1.0
  {
    PowiReciprocal(x, n);
    var p := Powi(x, -n);
    ReciprocalProduct(p);
    MulCongruence(Powi(x, n), 1.0 / p, p, p);
  }

  /** The negative branch of `powi` unfolded once. */
  lemma PowiReciprocal(x: real, n: int)
    requires I32_MIN < n < 0
    requires x != 0.0
    ensures Powi(x, -n) != 0.0 && Powi(x, n) == 1.0 / Powi(x, -n)
  {
    PowiIsPow(x, -n);
    PowNonzero(x, -n);
    assert Powi(x, n) == Reciprocal(Powi(x, -n));
  }

  /** A nonzero number times its reciprocal is one. */
  lemma ReciprocalProduct(p: real)
    requires p != 0.0
    ensures (1.0 / p) * p == 1.0
  {
  }

  /** `powi` of a nonzero base never vanishes, for any admissible exponent. */
  lemma PowiNonzero(x: real, n: int)
    requires I32_MIN < n <= I32_MAX
    requires x != 0.0
    ensures Powi(x, n) != 0.0
  {
    if n >= 0 {
      PowiIsPow(x, n);
      PowNonzero(x, n);
    } else {
      PowiInverse(x, n);
    }
  }

  /** A positive power of zero is zero. */
  lemma PowiZero(n: int)
    requires 0 < n <= I32_MAX
    ensures Powi(0.0, n) == 0.0
  {
    PowiIsPow(0.0, n);
    assert Pow(0.0, n) == 0.0 * Pow(0.0, n - 1);
  }
}
