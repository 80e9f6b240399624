/** The fixed five-channel result vector (`ResultVector<Real>`) that `resfin.rs`
    accumulates: one value per decomposition of the squared matrix element. */
module Channels {
  import opened Numeric

  /** Number of result channels; fixed by the type, never a runtime length. */
  const NUM_CHANNELS: nat := 5

  /** The five channels, in the fixed order of `ResultVector`: the pure photon
      term, the two anomalous beta-plus and beta-minus terms, and the real and
      imaginary parts of their interference. */
  datatype ResultVector = ResultVector(aa: real, bbPlus: real, bbMinus: real, abRe: real, abIm: real)
  {
    /** Indexing `v[k]` of the source. */
    function At(k: nat): real
      requires k < NUM_CHANNELS
    {
      match k
      case 0 => aa
      case 1 => bbPlus
      case 2 => bbMinus
      case 3 => abRe
      case _ => abIm
    }
  }

  /** `ResultVector::zero()`. */
  function Zero(): (z: ResultVector)
    ensures forall k :: 0 <= k < NUM_CHANNELS ==> z.At(k) == 0.0
  {
    ResultVector(0.0, 0.0, 0.0, 0.0, 0.0)
  }

  /** Elementwise addition (`+=` on result vectors). */
  function Add(v: ResultVector, w: ResultVector): (r: ResultVector)
    ensures forall k :: 0 <= k < NUM_CHANNELS ==> r.At(k) == v.At(k) + w.At(k)
  {
    ResultVector(v.aa + w.aa, v.bbPlus + w.bbPlus, v.bbMinus + w.bbMinus, v.abRe + w.abRe, v.abIm + w.abIm)
  }

  /** Elementwise square (`map(sqr)`); every component is nonnegative. */
  function Squares(v: ResultVector): (r: ResultVector)
    ensures forall k :: 0 <= k < NUM_CHANNELS ==> r.At(k) == Sqr(v.At(k)) && r.At(k) >= 0.0
  {
    ResultVector(Sqr(v.aa), Sqr(v.bbPlus), Sqr(v.bbMinus), Sqr(v.abRe), Sqr(v.abIm))
  }

  /** Channelwise product of two vectors. */
  function Times(v: ResultVector, w: ResultVector): ResultVector
  {
    ResultVector(v.aa * w.aa, v.bbPlus * w.bbPlus, v.bbMinus * w.bbMinus, v.abRe * w.abRe, v.abIm * w.abIm)
  }

  /** The vector with the same value on every channel. */
  function Uniform(c: real): ResultVector
  {
    ResultVector(c, c, c, c, c)
  }

  /** Elementwise scaling of every channel by one factor. */
  function Scale(v: ResultVector, c: real): ResultVector
  {
    Times(v, Uniform(c))
  }

  /** Weighted sum of the channels against a coefficient vector (`dot`). */
  function Dot(v: ResultVector, c: ResultVector): real
  {
    v.aa * c.aa + v.bbPlus * c.bbPlus + v.bbMinus * c.bbMinus + v.abRe * c.abRe + v.abIm * c.abIm
  }

  /** Every component of `v` is at most the matching component of `w`. */
  predicate LessEq(v: ResultVector, w: ResultVector)
  {
    forall k :: 0 <= k < NUM_CHANNELS ==> v.At(k) <= w.At(k)
  }

  /** Addition is commutative and associative, so the accumulated sums do not
      depend on the order in which contributions arrive. */
  lemma AddCommutesAndAssociates(u: ResultVector, v: ResultVector, w: ResultVector)
    ensures Add(u, v) == Add(v, u)
    ensures Add(Add(u, v), w) == Add(u, Add(v, w))
  {
  }

  /** Zero is the identity of addition. */
  lemma AddZero(v: ResultVector)
    ensures Add(v, Zero()) == v && Add(Zero(), v) == v
  {
  }

  /** The dot product is linear in the contribution. */
  lemma DotLinear(v: ResultVector, w: ResultVector, c: ResultVector)
    ensures Dot(Add(v, w), c) == Dot(v, c) + Dot(w, c)
    ensures Dot(Zero(), c) == 0.0
  {
  }
}
