/** Properties of the result accumulator and finaliser of `resfin.rs`. */
module ResFinLemmas {
  import opened Numeric
  import opened NumericLemmas
  import opened Channels
  import opened Config
  import opened ResFin

  // ---------------------------------------------------------------------------
  // The constants computed by `new`
  // ---------------------------------------------------------------------------

  /** The propagator factor lies in (0, 1] and is the reciprocal of `1 + ecart²`. */
  lemma PropagatorBounds(ecart: real)
    ensures 0.0 < Propagator(ecart) <= 1.0
    ensures Propagator(ecart) * (1.0 + Sqr(ecart)) == 1.0
  {
    var d := 1.0 + Sqr(ecart);
    assert d >= 1.0;
  }

  /** The peak distance measures `E² - m_Z²` in units of the width-mass product
      `Γ_Z m_Z`: it is zero exactly on the Z⁰ peak. */
  lemma EcartPicMeaning(cfg: Configuration)
    requires cfg.mZ0 != 0.0 && cfg.gZ0 != 0.0
    ensures EcartPic(cfg) * (cfg.gZ0 * cfg.mZ0) == Sqr(cfg.eTotal) - Sqr(cfg.mZ0)
  {
    var m, g, e := cfg.mZ0, cfg.gZ0, cfg.eTotal;
    var r := WidthRatio(cfg);
    var z := Sqr(e / m) - 1.0;
    assert EcartPic(cfg) * r == z;
    assert r * (m * m) == g * m;
    assert Sqr(e / m) * (m * m) == e * e;
    calc {
      EcartPic(cfg) * (g * m);
      EcartPic(cfg) * (r * (m * m));
      (EcartPic(cfg) * r) * (m * m);
      z * (m * m);
      e * e - m * m;
    }
  }

  /** The propagator `new` records belongs to the peak distance it records,
      and that distance measures `E² - m_Z²` in units of `Γ_Z m_Z`. */
  lemma NewPropagator(cfg: Configuration, eventWeight: real)
    requires cfg.mZ0 != 0.0 && cfg.gZ0 != 0.0 && cfg.numEvents > 0
    ensures var b := New(cfg, eventWeight);
      && b.propag == Propagator(b.ecartPic)
      && b.ecartPic * (cfg.gZ0 * cfg.mZ0) == Sqr(cfg.eTotal) - Sqr(cfg.mZ0)
  {
    EcartPicMeaning(cfg);
  }

  /** The real interference weight of `new` is the imaginary one rotated by
      the recorded peak distance. */
  lemma NewInterference(cfg: Configuration, eventWeight: real)
    requires cfg.mZ0 != 0.0 && cfg.gZ0 != 0.0 && cfg.numEvents > 0
    ensures var b := New(cfg, eventWeight);
      b.sigmaContribs.abRe == -b.ecartPic * b.sigmaContribs.abIm
  {
    var b := New(cfg, eventWeight);
    var x := InterferenceContrib(cfg, b.normWeight);
    assert b.sigmaContribs.abRe == x * b.ecartPic && b.sigmaContribs.abIm == -x;
  }

  /** The two anomalous weights of `new` are in the ratio of the squared
      anomalous couplings β₊² : β₋². */
  lemma NewAnomalousRatio(cfg: Configuration, eventWeight: real)
    requires cfg.mZ0 != 0.0 && cfg.gZ0 != 0.0 && cfg.numEvents > 0
    ensures var b := New(cfg, eventWeight);
      b.sigmaContribs.bbPlus * Sqr(cfg.betaMinus) == b.sigmaContribs.bbMinus * Sqr(cfg.betaPlus)
  {
    var b := New(cfg, eventWeight);
    var x := AnomalousContrib(cfg, b.normWeight);
    assert b.sigmaContribs.bbPlus == x * Sqr(cfg.betaPlus);
    assert b.sigmaContribs.bbMinus == x * Sqr(cfg.betaMinus);
    SwapFactors(x, Sqr(cfg.betaPlus), Sqr(cfg.betaMinus));
  }

  /** Reordering the factors of a triple product. */
  lemma SwapFactors(x: real, a: real, b: real)
    ensures (x * a) * b == (x * b) * a
  {
  }

  // ---------------------------------------------------------------------------
  // Accumulation by `integrate`
  // ---------------------------------------------------------------------------

  /** Reference sums over a stream of contributions: the contributions, their
      channelwise squares, their weights and the squares of their weights. */
  function SumVectors(cs: seq<ResultVector>): ResultVector
  {
    if cs == [] then Zero() else Add(cs[0], SumVectors(cs[1..]))
  }

  function SumSquares(cs: seq<ResultVector>): ResultVector
  {
    if cs == [] then Zero() else Add(Squares(cs[0]), SumSquares(cs[1..]))
  }

  function SumWeights(coeffs: ResultVector, cs: seq<ResultVector>): real
  {
    if cs == [] then 0.0 else Dot(cs[0], coeffs) + SumWeights(coeffs, cs[1..])
  }

  function SumSquaredWeights(coeffs: ResultVector, cs: seq<ResultVector>): real
  {
    if cs == [] then 0.0 else Sqr(Dot(cs[0], coeffs)) + SumSquaredWeights(coeffs, cs[1..])
  }

  /** Integrating a stream adds to each running sum the matching reference sum
      of the stream. */
  lemma {:induction false} IntegrateAllSums(b: ResultsBuilder, cs: seq<ResultVector>)
    requires b.selectedEvents + |cs| <= I32_MAX
    ensures var r := IntegrateAll(b, cs);
      && r.spm2 == Add(b.spm2, SumVectors(cs))
      && r.vars == Add(b.vars, SumSquares(cs))
      && r.sigma == b.sigma + SumWeights(b.sigmaContribs, cs)
      && r.variance == b.variance + SumSquaredWeights(b.sigmaContribs, cs)
    decreases |cs|
  {
    if cs == [] {
      AddZero(b.spm2);
      AddZero(b.vars);
    } else {
      IntegrateAllSums(Integrate(b, cs[0]), cs[1..]);
      AddCommutesAndAssociates(b.spm2, cs[0], SumVectors(cs[1..]));
      AddCommutesAndAssociates(b.vars, Squares(cs[0]), SumSquares(cs[1..]));
    }
  }

  /** From a fresh builder, the running sums are exactly the reference sums. */
  lemma IntegrateFromNew(cfg: Configuration, eventWeight: real, cs: seq<ResultVector>)
    requires cfg.mZ0 != 0.0 && cfg.gZ0 != 0.0 && cfg.numEvents > 0
    requires |cs| <= I32_MAX
    ensures var b := New(cfg, eventWeight);
      var r := IntegrateAll(b, cs);
      && r.selectedEvents == |cs|
      && r.spm2 == SumVectors(cs) && r.vars == SumSquares(cs)
      && r.sigma == SumWeights(b.sigmaContribs, cs)
      && r.variance == SumSquaredWeights(b.sigmaContribs, cs)
  {
    var b := New(cfg, eventWeight);
    IntegrateAllSums(b, cs);
    AddZero(SumVectors(cs));
    AddZero(SumSquares(cs));
  }

  /** Two events integrated in either order give the same builder. */
  lemma IntegrateCommutes(b: ResultsBuilder, c: ResultVector, d: ResultVector)
    requires b.selectedEvents + 2 <= I32_MAX
    ensures Integrate(Integrate(b, c), d) == Integrate(Integrate(b, d), c)
  {
    AddCommutesAndAssociates(b.spm2, c, d);
    AddCommutesAndAssociates(b.spm2, d, c);
    AddCommutesAndAssociates(b.vars, Squares(c), Squares(d));
    AddCommutesAndAssociates(b.vars, Squares(d), Squares(c));
  }

  /** Integrating a stream in two pieces is integrating it whole. */
  lemma {:induction false} IntegrateAllAppend(b: ResultsBuilder, xs: seq<ResultVector>, ys: seq<ResultVector>)
    requires b.selectedEvents + |xs| + |ys| <= I32_MAX
    ensures IntegrateAll(b, xs + ys) == IntegrateAll(IntegrateAll(b, xs), ys)
    decreases |xs|
  {
    if xs != [] {
      assert (xs + ys)[0] == xs[0] && (xs + ys)[1..] == xs[1..] + ys;
      IntegrateAllAppend(Integrate(b, xs[0]), xs[1..], ys);
    } else {
      assert xs + ys == ys;
    }
  }

  /** A stream of all-zero contributions is counted but changes no sum: from a
      fresh builder, `sigma` and `variance` stay zero. */
  lemma {:induction false} IntegrateZeros(b: ResultsBuilder, cs: seq<ResultVector>)
    requires b.selectedEvents + |cs| <= I32_MAX
    requires forall i :: 0 <= i < |cs| ==> cs[i] == Zero()
    ensures IntegrateAll(b, cs) == b.(selectedEvents := b.selectedEvents + |cs|)
    decreases |cs|
  {
    if cs != [] {
      var b1 := Integrate(b, cs[0]);
      AddZero(b.spm2);
      AddZero(b.vars);
      DotLinear(Zero(), Zero(), b.sigmaContribs);
      assert Squares(Zero()) == Zero();
      assert b1 == b.(selectedEvents := b.selectedEvents + 1);
      IntegrateZeros(b1, cs[1..]);
    }
  }

  // ---------------------------------------------------------------------------
  // Consistency of the running sums (Cauchy-Schwarz)
  // ---------------------------------------------------------------------------

  /** A sum `s` of `n` terms whose squares sum to `v`: the sum of squares is
      nonnegative and bounds the squared sum, `s² <= n·v`. */
  predicate SumBound(n: real, s: real, v: real)
  {
    v >= 0.0 && Sqr(s) <= n * v
  }

  /** Every running sum of the builder is bounded by its sum of squares and the
      event count, as sums of real terms always are. */
  predicate Consistent(b: ResultsBuilder)
  {
    && b.selectedEvents >= 0
    && (forall k :: 0 <= k < NUM_CHANNELS ==> SumBound(b.selectedEvents as real, b.spm2.At(k), b.vars.At(k)))
    && SumBound(b.selectedEvents as real, b.sigma, b.variance)
  }

  /** Adding one term `c` (and its square) keeps the bound, with one more term. */
  lemma CauchyStep(n: real, s: real, v: real, c: real)
    requires n >= 0.0 && SumBound(n, s, v)
    ensures SumBound(n + 1.0, s + c, v + Sqr(c))
  {
    var gap := v - 2.0 * s * c + n * Sqr(c);
    CauchySplit(n, s, v, c);
    if n == 0.0 {
      SqrZero(s);
    } else {
      CauchyGap(n, s, v, c);
      DivideByPositive(n, gap);
    }
  }

  /** The bound after the step is the bound before plus a gap term. */
  lemma CauchySplit(n: real, s: real, v: real, c: real)
    ensures (n + 1.0) * (v + Sqr(c)) - Sqr(s + c) == (n * v - Sqr(s)) + (v - 2.0 * s * c + n * Sqr(c))
  {
    SqrExpand(s, c);
  }

  /** `n` times the gap term is at least the square `(s - n·c)²`. */
  lemma CauchyGap(n: real, s: real, v: real, c: real)
    requires n > 0.0 && Sqr(s) <= n * v
    ensures n * (v - 2.0 * s * c + n * Sqr(c)) >= 0.0
  {
    SqrExpand(s, -(n * c));
    assert Sqr(n * c) == n * n * Sqr(c);
    assert n * (v - 2.0 * s * c + n * Sqr(c)) == n * v - 2.0 * n * s * c + n * n * Sqr(c);
    assert n * (v - 2.0 * s * c + n * Sqr(c)) >= Sqr(s - n * c);
  }

  /** A fresh builder is consistent. */
  lemma NewConsistent(cfg: Configuration, eventWeight: real)
    requires cfg.mZ0 != 0.0 && cfg.gZ0 != 0.0 && cfg.numEvents > 0
    ensures Consistent(New(cfg, eventWeight))
  {
    assert Sqr(0.0) == 0.0;
  }

  /** `integrate` keeps the builder consistent. */
  lemma IntegrateConsistent(b: ResultsBuilder, c: ResultVector)
    requires Consistent(b) && b.selectedEvents < I32_MAX
    ensures Consistent(Integrate(b, c))
  {
    var n := b.selectedEvents as real;
    var r := Integrate(b, c);
    assert r.selectedEvents as real == n + 1.0;
    forall k | 0 <= k < NUM_CHANNELS
      ensures SumBound(n + 1.0, r.spm2.At(k), r.vars.At(k))
    {
      CauchyStep(n, b.spm2.At(k), b.vars.At(k), c.At(k));
    }
    CauchyStep(n, b.sigma, b.variance, Weight(b, c));
  }

  /** Integrating a whole stream keeps the builder consistent. */
  lemma {:induction false} IntegrateAllConsistent(b: ResultsBuilder, cs: seq<ResultVector>)
    requires Consistent(b) && b.selectedEvents + |cs| <= I32_MAX
    ensures Consistent(IntegrateAll(b, cs))
    decreases |cs|
  {
    if cs != [] {
      IntegrateConsistent(b, cs[0]);
      IntegrateAllConsistent(Integrate(b, cs[0]), cs[1..]);
    }
  }

  // ---------------------------------------------------------------------------
  // `finalize`
  // ---------------------------------------------------------------------------

  /** The sample variance of a consistent sum over at most `n` values is
      nonnegative, so the square roots `finalize` takes are of nonnegative
      numbers. */
  lemma SampleVarianceNonnegative(sel: real, n: real, s: real, v: real)
    requires 0.0 <= sel <= n && n > 1.0 && SumBound(sel, s, v)
    ensures SampleVariance(s, v, n) >= 0.0
  {
    assert sel * v <= n * v;
    var q := Sqr(s) / n;
    assert n * q == Sqr(s);
    assert n * (v - q) >= 0.0;
    DivideByPositive(n, v - q);
    DivideByPositive(n - 1.0, SampleVariance(s, v, n));
  }

  /** For a consistent builder that selected no more events than the
      configuration generates, every variance `finalize` computes is
      nonnegative: the total one it reports and the one of each channel. */
  lemma FinalizeVarianceNonnegative(b: ResultsBuilder, sqrt: real -> real)
    requires Finalizable(b, sqrt) && Consistent(b)
    requires b.selectedEvents <= b.config.numEvents as int
    ensures Finalize(b, sqrt).variance >= 0.0
    ensures forall k :: 0 <= k < NUM_CHANNELS ==>
      SampleVariance(b.spm2.At(k), b.vars.At(k), EventCount(b.config)) >= 0.0
  {
    var sel, n := b.selectedEvents as real, EventCount(b.config);
    SampleVarianceNonnegative(sel, n, b.sigma, b.variance);
    forall k | 0 <= k < NUM_CHANNELS
      ensures SampleVariance(b.spm2.At(k), b.vars.At(k), n) >= 0.0
    {
      SampleVarianceNonnegative(sel, n, b.spm2.At(k), b.vars.At(k));
    }
  }

  /** Both spins carry the same relative uncertainties, those of the
      accumulated sums over the configured number of events. */
  lemma FinalizeUncertainties(b: ResultsBuilder, sqrt: real -> real)
    requires Finalizable(b, sqrt)
    ensures var r := Finalize(b, sqrt);
      && r.vars.neg == r.vars.pos
      && forall k :: 0 <= k < NUM_CHANNELS ==>
           r.vars.neg.At(k) == RelativeUncertainty(b.spm2.At(k), b.vars.At(k), EventCount(b.config), sqrt)
  {
  }

  /** The total cross section is the accumulated one times the flux factor `1/2s`. */
  lemma FinalizeSigma(b: ResultsBuilder, sqrt: real -> real)
    requires Finalizable(b, sqrt)
    ensures Finalize(b, sqrt).sigma * (2.0 * Sqr(b.config.eTotal)) == b.sigma
  {
    FinalizeSigmaFlux(b, sqrt);
    UndoFlux(Finalize(b, sqrt).sigma, b.sigma, b.config);
  }

  /** A value scaled by the flux factor, times `2s`, is the value again. */
  lemma UndoFlux(t: real, s: real, cfg: Configuration)
    requires cfg.eTotal != 0.0 && t == s * Flux(cfg)
    ensures t * (2.0 * Sqr(cfg.eTotal)) == s
  {
    FluxInverse(cfg);
    ScaledBack(t, s, Flux(cfg), 2.0 * Sqr(cfg.eTotal));
  }

  /** The step of `FinalizeSigma` that unfolds the `sigma` field of `Finalize`. */
  lemma FinalizeSigmaFlux(b: ResultsBuilder, sqrt: real -> real)
    requires Finalizable(b, sqrt)
    ensures Finalize(b, sqrt).sigma == b.sigma * Flux(b.config)
  {
  }

  /** Multiplying by a number and then by its reciprocal changes nothing. */
  lemma ScaledBack(t: real, s: real, f: real, d: real)
    requires t == s * f && f * d == 1.0
    ensures t * d == s
  {
    Associate(s, f, d);
  }

  /** The flux factor is the reciprocal of `2s`. */
  lemma FluxInverse(cfg: Configuration)
    requires cfg.eTotal != 0.0
    ensures Flux(cfg) * (2.0 * Sqr(cfg.eTotal)) == 1.0
  {
    SqrPositive(cfg.eTotal);
  }

  /** Associativity of real multiplication. */
  lemma Associate(a: real, b: real, c: real)
    ensures (a * b) * c == a * (b * c)
  {
  }

  /** `finalize` divides by the configured number of events, never by the
      number of selected ones: changing the selected count changes nothing else. */
  lemma FinalizeIgnoresSelectedCount(b: ResultsBuilder, k: I32, sqrt: real -> real)
    requires Finalizable(b, sqrt)
    ensures Finalizable(b.(selectedEvents := k), sqrt)
    ensures Finalize(b.(selectedEvents := k), sqrt) == Finalize(b, sqrt).(selectedEvents := k)
  {
    SpinsIgnoreSelectedCount(b, k);
  }

  /** The polarised spin states do not depend on the selected count. */
  lemma SpinsIgnoreSelectedCount(b: ResultsBuilder, k: I32)
    requires PhysicalConfig(b.config)
    ensures PolarisedSpins(b.(selectedEvents := k)) == PolarisedSpins(b)
  {
    var b' := b.(selectedEvents := k);
    assert FinalFactor(b') == FinalFactor(b);
    assert BuilderCoefficients(b') == BuilderCoefficients(b);
  }

  /** Three scalar factors can be applied in any order. */
  lemma ScaleCommutes(x: real, a: real, b: real, c: real)
    ensures ((x * a) * b) * c == ((x * b) * c) * a
  {
  }

  /** Three channelwise factors can be applied in any order. */
  lemma TimesCommutes(v: ResultVector, p: ResultVector, u: ResultVector, c: ResultVector)
    ensures Times(Times(Times(v, p), u), c) == Times(Times(Times(v, u), c), p)
  {
    TimesExpand(v, p, u, c);
    TimesExpand(v, u, c, p);
    ScaleCommutes(v.aa, p.aa, u.aa, c.aa);
    ScaleCommutes(v.bbPlus, p.bbPlus, u.bbPlus, c.bbPlus);
    ScaleCommutes(v.bbMinus, p.bbMinus, u.bbMinus, c.bbMinus);
    ScaleCommutes(v.abRe, p.abRe, u.abRe, c.abRe);
    ScaleCommutes(v.abIm, p.abIm, u.abIm, c.abIm);
  }

  /** Three channelwise factors, channel by channel. */
  lemma TimesExpand(v: ResultVector, a: ResultVector, b: ResultVector, c: ResultVector)
    ensures Times(Times(Times(v, a), b), c)
         == ResultVector(((v.aa * a.aa) * b.aa) * c.aa, ((v.bbPlus * a.bbPlus) * b.bbPlus) * c.bbPlus,
                         ((v.bbMinus * a.bbMinus) * b.bbMinus) * c.bbMinus, ((v.abRe * a.abRe) * b.abRe) * c.abRe,
                         ((v.abIm * a.abIm) * b.abIm) * c.abIm)
  {
  }

  /** Polarising before or after applying the coefficients gives the same
      channels. */
  lemma PolariseCommutes(v: ResultVector, pol: real, common: real, c: ResultVector)
    ensures ApplyCoefficients(Polarise(v, pol), common, c) == Polarise(ApplyCoefficients(v, common, c), pol)
  {
    TimesCommutes(v, PolarisationFactors(pol), Uniform(common), c);
  }

  /** Polarising keeps the photon channel, scales the two anomalous channels by
      the square of the factor and the two interference channels by the factor. */
  lemma PolariseChannels(v: ResultVector, pol: real)
    ensures var r := Polarise(v, pol);
      && r.aa == v.aa
      && r.bbPlus == v.bbPlus * Sqr(pol) && r.bbMinus == v.bbMinus * Sqr(pol)
      && r.abRe == v.abRe * pol && r.abIm == v.abIm * pol
  {
  }

  /** The two spin states `finalize` reports are the same unpolarised channels,
      polarised with `pol_m` and with `pol_p` respectively; in particular the
      photon channel is the same for both spins. */
  lemma FinalizePolarisation(b: ResultsBuilder, sqrt: real -> real)
    requires Finalizable(b, sqrt)
    ensures var r := Finalize(b, sqrt);
      && r.spm2.neg == Polarise(Unpolarised(b), PolMinus(b.config))
      && r.spm2.pos == Polarise(Unpolarised(b), PolPlus(b.config))
      && r.spm2.neg.aa == r.spm2.pos.aa
    ensures PolMinus(b.config) - PolPlus(b.config) == 1.0
  {
    PolariseCommutes(b.spm2, PolMinus(b.config), FinalFactor(b), BuilderCoefficients(b));
    PolariseCommutes(b.spm2, PolPlus(b.config), FinalFactor(b), BuilderCoefficients(b));
  }

  /** The two anomalous channels exchanged. */
  function SwapAnomalous(v: ResultVector): ResultVector
  {
    v.(bbPlus := v.bbMinus, bbMinus := v.bbPlus)
  }

  function SwapSpins(s: Spins): Spins
  {
    Spins(SwapAnomalous(s.neg), SwapAnomalous(s.pos))
  }

  /** The builder whose accumulated anomalous channels are exchanged. */
  function SwapBuilder(b: ResultsBuilder): ResultsBuilder
  {
    b.(spm2 := SwapAnomalous(b.spm2), vars := SwapAnomalous(b.vars))
  }

  /** A channelwise factor that treats both anomalous channels alike commutes
      with exchanging them. */
  lemma SwapTimes(v: ResultVector, w: ResultVector)
    requires w.bbPlus == w.bbMinus
    ensures Times(SwapAnomalous(v), w) == SwapAnomalous(Times(v, w))
  {
  }

  /** Exchanging the accumulated anomalous channels exchanges them in both
      polarised spin states. */
  lemma SwapPolarisedSpins(b: ResultsBuilder)
    requires PhysicalConfig(b.config)
    ensures PolarisedSpins(SwapBuilder(b)) == SwapSpins(PolarisedSpins(b))
  {
    var b' := SwapBuilder(b);
    var u, c := Uniform(FinalFactor(b)), BuilderCoefficients(b);
    assert FinalFactor(b') == FinalFactor(b) && BuilderCoefficients(b') == c;
    forall pol: real
      ensures SpinResult(b', pol) == SwapAnomalous(SpinResult(b, pol))
    {
      var p := PolarisationFactors(pol);
      SwapTimes(b.spm2, p);
      SwapTimes(Times(b.spm2, p), u);
      SwapTimes(Times(Times(b.spm2, p), u), c);
    }
  }

  /** Exchanging the anomalous channels of the sums and of the sums of squares
      exchanges their relative uncertainties. */
  lemma SwapUncertainties(spm2: ResultVector, vars: ResultVector, n: real, sqrt: real -> real)
    requires n != 0.0 && n != 1.0
    requires forall k :: 0 <= k < NUM_CHANNELS ==> spm2.At(k) != 0.0
    ensures forall k :: 0 <= k < NUM_CHANNELS ==> SwapAnomalous(spm2).At(k) != 0.0
    ensures Uncertainties(SwapAnomalous(spm2), SwapAnomalous(vars), n, sqrt)
         == SwapAnomalous(Uncertainties(spm2, vars, n, sqrt))
  {
    assert spm2.At(0) != 0.0 && spm2.At(1) != 0.0 && spm2.At(2) != 0.0;
    assert spm2.At(3) != 0.0 && spm2.At(4) != 0.0;
  }

  /** Exchanging the anomalous channels of the spin states and of their
      uncertainties exchanges the two significances and their uncertainties. */
  lemma SwapSignificances(s: Spins, u: ResultVector, sqrt: real -> real)
    requires SignificanceDefined(s, sqrt)
    ensures SignificanceDefined(SwapSpins(s), sqrt)
    ensures var g, g' := Significances(s, u, sqrt), Significances(SwapSpins(s), SwapAnomalous(u), sqrt);
      g'.ssP == g.ssM && g'.ssM == g.ssP && g'.incSsP == g.incSsM && g'.incSsM == g.incSsP
  {
  }

  /** The two anomalous couplings play symmetric roles: exchanging their
      accumulated channels exchanges the statistical significances `ss_p` and
      `ss_m` and their uncertainties. */
  lemma FinalizeSwapsAnomalous(b: ResultsBuilder, sqrt: real -> real)
    requires Finalizable(b, sqrt)
    ensures Finalizable(SwapBuilder(b), sqrt)
    ensures var r, r' := Finalize(b, sqrt), Finalize(SwapBuilder(b), sqrt);
      r'.ssP == r.ssM && r'.ssM == r.ssP && r'.incSsP == r.incSsM && r'.incSsM == r.incSsP
  {
    var n := EventCount(b.config);
    SwapPolarisedSpins(b);
    SwapUncertainties(b.spm2, b.vars, n, sqrt);
    SwapSignificances(PolarisedSpins(b), Uncertainties(b.spm2, b.vars, n, sqrt), sqrt);
  }

  /** When both anomalous channels accumulated the same sums and sums of
      squares, the two significances and their uncertainties coincide. */
  lemma FinalizeSymmetric(b: ResultsBuilder, sqrt: real -> real)
    requires Finalizable(b, sqrt)
    requires b.spm2.bbPlus == b.spm2.bbMinus && b.vars.bbPlus == b.vars.bbMinus
    ensures var r := Finalize(b, sqrt);
      r.ssP == r.ssM && r.incSsP == r.incSsM
  {
    assert SwapBuilder(b) == b;
    FinalizeSwapsAnomalous(b, sqrt);
  }

  // ---------------------------------------------------------------------------
  // The analytical prediction of `fawzi`
  // ---------------------------------------------------------------------------

  /** Without any cut (no minimal energy, no angular cut between photons, no
      cut on the beam-photon plane) every correction term is one, so the
      prediction is that of the uncorrected cross section (see
      `FawziPredictUncorrected`). */
  lemma FawziNoCuts(cfg: Configuration)
    requires FawziDefined(cfg)
    requires cfg.eventCut.eMin == 0.0 && cfg.eventCut.photonPhotonCut == 1.0
    requires cfg.eventCut.beamPhotonPlaneCut == 0.0
    ensures Fawzi(cfg) == FawziPredict(FawziSigma(cfg), FawziTerms(1.0, 1.0, 1.0, 1.0, 1.0, 1.0))
  {
    NoEnergyCut(cfg);
    assert AngularCut(cfg) == 0.0;
    FawziPolynomialsNoCuts();
  }

  /** With every correction term one, the two cut cross sections are three
      and five times the uncut one. */
  lemma FawziPredictUncorrected(sig: real)
    ensures var f := FawziPredict(sig, FawziTerms(1.0, 1.0, 1.0, 1.0, 1.0, 1.0));
      f.sig == sig && f.sigP == 3.0 * sig && f.sigM == 5.0 * sig
  {
  }

  /** A zero minimal energy is a zero energy cut. */
  lemma NoEnergyCut(cfg: Configuration)
    requires cfg.eTotal != 0.0 && cfg.eventCut.eMin == 0.0
    ensures EnergyCut(cfg) == 0.0
  {
  }

  /** Every correction polynomial is one when all three cuts are zero. */
  lemma FawziPolynomialsNoCuts()
    ensures FawziPolynomials(0.0, 0.0, 0.0) == FawziTerms(1.0, 1.0, 1.0, 1.0, 1.0, 1.0)
  {
    PowiZero(4);
    PowiZero(3);
    PowiZero(2);
  }

  /** The squared modulus of `1 / (x + i·gre)`, computed as `fawzi` computes
      it, is `1 / (x² + gre²)`. */
  lemma PropagatorNormSqrInverse(x: real, gre: real)
    requires Sqr(x) + Sqr(gre) != 0.0
    ensures PropagatorNormSqr(x, gre) * (Sqr(x) + Sqr(gre)) == 1.0
  {
    var d := Sqr(x) + Sqr(gre);
    SqrQuotient(x, d);
    SqrQuotient(-gre, d);
    assert Sqr(-gre) == Sqr(gre);
    AddQuotients(Sqr(x), Sqr(gre), Sqr(d));
    QuotientOfSquare(d);
  }

  /** The square of a quotient is the quotient of the squares. */
  lemma SqrQuotient(a: real, d: real)
    requires d != 0.0
    ensures Sqr(d) != 0.0 && Sqr(a / d) == Sqr(a) / Sqr(d)
  {
    SqrPositive(d);
    var q := a / d;
    QuotientTimesDivisor(a, d);
    SqrProduct(q, d);
    DivideOut(Sqr(q), Sqr(d), Sqr(a));
  }

  lemma QuotientTimesDivisor(a: real, d: real)
    requires d != 0.0
    ensures (a / d) * d == a
  {
  }

  lemma SqrProduct(x: real, y: real)
    ensures Sqr(x * y) == Sqr(x) * Sqr(y)
  {
  }

  lemma DivideOut(p: real, s: real, t: real)
    requires s != 0.0 && p * s == t
    ensures p == t / s
  {
  }

  lemma AddQuotients(a: real, b: real, s: real)
    requires s != 0.0
    ensures a / s + b / s == (a + b) / s
  {
  }

  /** `d / d²` is the reciprocal of `d`. */
  lemma QuotientOfSquare(d: real)
    requires d != 0.0
    ensures Sqr(d) != 0.0 && (d / Sqr(d)) * d == 1.0
  {
    SqrPositive(d);
  }
}
