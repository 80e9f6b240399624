/** The result accumulator and finaliser of `resfin.rs`: `ResultsBuilder` sums
    the per-event channel contributions, and `finalize` turns the sums into cross
    sections, uncertainties and statistical significances. Floating-point numbers
    are mathematical reals, every division is guarded by a precondition, and the
    square root is a parameter, assumed only to be nonzero at the significance
    denominator (`SignificanceDefined`). */
module ResFin {
  import opened Numeric
  import opened NumericLemmas
  import opened Channels
  import opened Config

  /** The `f64` nearest to pi (`std::f64::consts::PI`), written out exactly. */
  const PI: real := 3.141592653589793115997963468544185161590576171875

  /** Number of outgoing particles (three photons). */
  const OUTGOING_COUNT: int := 3

  /** The accumulator. The first six fields are the running sums; the rest are
      constants computed once by `New` for use by `Finalize`. */
  datatype ResultsBuilder = ResultsBuilder(
    selectedEvents: I32,
    spm2: ResultVector,
    vars: ResultVector,
    sigmaContribs: ResultVector,
    sigma: real,
    variance: real,
    config: Configuration,
    factCom: real,
    normWeight: real,
    propag: real,
    ecartPic: real)

  /** Ratio of the Z⁰ width to its mass. */
  function WidthRatio(cfg: Configuration): real
    requires cfg.mZ0 != 0.0
  {
    cfg.gZ0 / cfg.mZ0
  }

  /** Distance of the collision energy from the Z⁰ peak, in units of the width ratio. */
  function EcartPic(cfg: Configuration): real
    requires cfg.mZ0 != 0.0 && cfg.gZ0 != 0.0
  {
    (Sqr(cfg.eTotal / cfg.mZ0) - 1.0) / WidthRatio(cfg)
  }

  /** The Z⁰ propagator factor `1 / (1 + ecart_pic²)`. */
  function Propagator(ecart: real): real
  {
    1.0 / (1.0 + Sqr(ecart))
  }

  /** The common factor: non-averaged over spins, divided by the symmetry
      factor of three identical photons, converted from GeV⁻² to picobarns. */
  function CommonFactor(cfg: Configuration): real
  {
    1.0 / 6.0 * cfg.gev2ToPicobarn
  }

  /** The total phase-space normalisation of the event weight: `(2π)^(4-3n)`
      for `n` outgoing particles, shared out over the events. */
  function NormWeight(cfg: Configuration, eventWeight: real): real
    requires cfg.numEvents > 0
  {
    var nEv := cfg.numEvents as int as real;
    eventWeight * (Powi(2.0 * PI, 4 - 3 * OUTGOING_COUNT) / nEv)
  }

  /** The sums over polarisations of the photon, interference and anomalous terms. */
  function PolarisationSums(cfg: Configuration): (real, real, real)
  {
    var pAa := 2.0;
    var pAb := 1.0 - 4.0 * cfg.sin2Weinberg;
    var pBb := pAb + 8.0 * Sqr(cfg.sin2Weinberg);
    (pAa, pAb, pBb)
  }

  /** The weight of the photon channel. */
  function PhotonContrib(cfg: Configuration, normWeight: real): real
  {
    var cAa := CommonFactor(cfg) * PolarisationSums(cfg).0;
    normWeight / 4.0 * cAa
  }

  /** The weight of the anomalous channels before the squared coupling. */
  function AnomalousContrib(cfg: Configuration, normWeight: real): real
    requires cfg.mZ0 != 0.0 && cfg.gZ0 != 0.0
  {
    var gzr := WidthRatio(cfg);
    SqrPositive(gzr);
    PowiNonzero(cfg.mZ0, 4);
    var cBb := CommonFactor(cfg) * PolarisationSums(cfg).2 / Powi(cfg.mZ0, 4);
    normWeight / 4.0 * cBb * Propagator(EcartPic(cfg)) / Sqr(gzr)
  }

  /** The weight of the interference channels before the peak-distance rotation. */
  function InterferenceContrib(cfg: Configuration, normWeight: real): real
    requires cfg.mZ0 != 0.0 && cfg.gZ0 != 0.0
  {
    var gzr := WidthRatio(cfg);
    SqrPositive(cfg.mZ0);
    var cAb := CommonFactor(cfg) * PolarisationSums(cfg).1 / Sqr(cfg.mZ0);
    normWeight / 4.0 * cAb * 2.0 * cfg.betaPlus * Propagator(EcartPic(cfg)) / gzr
  }

  /** How much each channel adds to the total cross section, from the
      polarisation sums, the homogeneity coefficients and the propagator. */
  function SigmaContribs(cfg: Configuration, normWeight: real): ResultVector
    requires cfg.mZ0 != 0.0 && cfg.gZ0 != 0.0
  {
    var bbContrib := AnomalousContrib(cfg, normWeight);
    var abContrib := InterferenceContrib(cfg, normWeight);
    ResultVector(
      PhotonContrib(cfg, normWeight),
      bbContrib * Sqr(cfg.betaPlus),
      bbContrib * Sqr(cfg.betaMinus),
      abContrib * EcartPic(cfg),
      -abContrib)
  }

  /** `ResultsBuilder::new`: an empty accumulator, together with the common
      factor, the normalised event weight, the propagator and the weight each
      channel contributes to the total cross section. The source divides by the
      Z⁰ mass, by the width ratio and by the number of events, so all three
      must be nonzero. */
  function New(cfg: Configuration, eventWeight: real): (b: ResultsBuilder)
    requires cfg.mZ0 != 0.0 && cfg.gZ0 != 0.0 && cfg.numEvents > 0
    ensures b.selectedEvents == 0 && b.spm2 == Zero() && b.vars == Zero()
    ensures b.sigma == 0.0 && b.variance == 0.0 && b.config == cfg
  {
    var normWeight := NormWeight(cfg, eventWeight);
    var ecartPic := EcartPic(cfg);
    ResultsBuilder(0, Zero(), Zero(), SigmaContribs(cfg, normWeight), 0.0, 0.0, cfg,
                   CommonFactor(cfg), normWeight, Propagator(ecartPic), ecartPic)
  }

  /** The weight an event's contribution adds to the total cross section. */
  function Weight(b: ResultsBuilder, contribution: ResultVector): real
  {
    Dot(contribution, b.sigmaContribs)
  }

  /** `ResultsBuilder::integrate`: counts the event, adds the contribution to
      the per-channel sums and its square to the per-channel sums of squares,
      and does the same for its weight. The counter is an `i32`, so it must not
      be at its maximum. */
  function Integrate(b: ResultsBuilder, contribution: ResultVector): (r: ResultsBuilder)
    requires b.selectedEvents < I32_MAX
    ensures r.selectedEvents == b.selectedEvents + 1
    ensures LessEq(b.vars, r.vars) && b.variance <= r.variance
    ensures r.sigmaContribs == b.sigmaContribs && r.config == b.config
    ensures r.factCom == b.factCom && r.normWeight == b.normWeight
    ensures r.propag == b.propag && r.ecartPic == b.ecartPic
  {
    var w := Weight(b, contribution);
    b.(selectedEvents := b.selectedEvents + 1,
       spm2 := Add(b.spm2, contribution),
       vars := Add(b.vars, Squares(contribution)),
       sigma := b.sigma + w,
       variance := b.variance + Sqr(w))
  }

  /** Integrates a whole stream of contributions, in order. */
  function IntegrateAll(b: ResultsBuilder, contributions: seq<ResultVector>): (r: ResultsBuilder)
    requires b.selectedEvents + |contributions| <= I32_MAX
    ensures r.selectedEvents == b.selectedEvents + |contributions|
    ensures r.sigmaContribs == b.sigmaContribs && r.config == b.config
    ensures r.factCom == b.factCom && r.normWeight == b.normWeight
    ensures r.propag == b.propag && r.ecartPic == b.ecartPic
    decreases |contributions|
  {
    if contributions == [] then b
    else IntegrateAll(Integrate(b, contributions[0]), contributions[1..])
  }

  /** The result vectors of the two spin states: index 0 of the source (`neg`,
      polarised with `pol_m`) and index 1 (`pos`, polarised with `pol_p`). */
  datatype Spins = Spins(neg: ResultVector, pos: ResultVector)

  /** `FinalResults`. */
  datatype FinalResults = FinalResults(
    selectedEvents: I32,
    spm2: Spins,
    vars: Spins,
    sigma: real,
    prec: real,
    variance: real,
    betaMin: real,
    ssP: real,
    incSsP: real,
    ssM: real,
    incSsM: real,
    config: Configuration)

  /** The number of events as a float, the `n` of every mean and variance in `finalize`. */
  function EventCount(cfg: Configuration): real
  {
    cfg.numEvents as int as real
  }

  /** The unbiased sample variance of `n` values whose sum is `s` and whose
      sum of squares is `v`. */
  function SampleVariance(s: real, v: real, n: real): real
    requires n != 0.0 && n != 1.0
  {
    (v - Sqr(s) / n) / (n - 1.0)
  }

  /** Relative uncertainty of a sum `s` of `n` values with sum of squares `v`:
      the standard error of the mean divided by the absolute mean. */
  function RelativeUncertainty(s: real, v: real, n: real, sqrt: real -> real): real
    requires n != 0.0 && n != 1.0 && s != 0.0
  {
    sqrt(SampleVariance(s, v, n) / n) / Abs(s / n)
  }

  /** The relative uncertainty of every channel. */
  function Uncertainties(spm2: ResultVector, vars: ResultVector, n: real, sqrt: real -> real): (u: ResultVector)
    requires n != 0.0 && n != 1.0
    requires forall k :: 0 <= k < NUM_CHANNELS ==> spm2.At(k) != 0.0
    ensures forall k :: 0 <= k < NUM_CHANNELS ==> u.At(k) == RelativeUncertainty(spm2.At(k), vars.At(k), n, sqrt)
  {
    assert spm2.At(0) != 0.0 && spm2.At(1) != 0.0 && spm2.At(2) != 0.0;
    assert spm2.At(3) != 0.0 && spm2.At(4) != 0.0;
    ResultVector(
      RelativeUncertainty(spm2.aa, vars.aa, n, sqrt),
      RelativeUncertainty(spm2.bbPlus, vars.bbPlus, n, sqrt),
      RelativeUncertainty(spm2.bbMinus, vars.bbMinus, n, sqrt),
      RelativeUncertainty(spm2.abRe, vars.abRe, n, sqrt),
      RelativeUncertainty(spm2.abIm, vars.abIm, n, sqrt))
  }

  /** Electroweak polarisation factor of the spin state `pos`. */
  function PolPlus(cfg: Configuration): real
  {
    -2.0 * cfg.sin2Weinberg
  }

  /** Electroweak polarisation factor of the spin state `neg`. */
  function PolMinus(cfg: Configuration): real
  {
    1.0 + PolPlus(cfg)
  }

  /** The factor of each channel for the polarisation factor `pol`: the photon
      channel is untouched, the two anomalous channels scale with the square
      of `pol` and the two interference channels with `pol` itself. */
  function PolarisationFactors(pol: real): ResultVector
  {
    ResultVector(1.0, Sqr(pol), Sqr(pol), pol, pol)
  }

  /** Takes a polarisation factor into account. */
  function Polarise(v: ResultVector, pol: real): ResultVector
  {
    Times(v, PolarisationFactors(pol))
  }

  /** Flux factor `1/2s` for two massless incoming particles. */
  function Flux(cfg: Configuration): real
    requires cfg.eTotal != 0.0
  {
    SqrPositive(cfg.eTotal);
    1.0 / (2.0 * Sqr(cfg.eTotal))
  }

  /** The physical coefficient of each channel: one on the photon channel, the
      Z⁰ propagator divided by the squared width-mass product `gm = Γ_Z m_Z` on
      the anomalous channels, and divided by `gm` itself, with the peak
      distance on the real part, on the interference channels. */
  function PhysicalCoefficients(propag: real, ecart: real, g: real, m: real): ResultVector
    requires g != 0.0 && m != 0.0
  {
    ProductNonzero(g, m);
    var gm := g * m;
    SqrPositive(gm);
    ResultVector(1.0, propag / Sqr(gm), propag / Sqr(gm), propag * ecart / gm, propag / gm)
  }

  /** The common factor on every channel, then the physical coefficients. */
  function ApplyCoefficients(v: ResultVector, common: real, coefficients: ResultVector): ResultVector
  {
    Times(Scale(v, common), coefficients)
  }

  /** The physical coefficients of the builder's configuration. */
  function BuilderCoefficients(b: ResultsBuilder): ResultVector
    requires PhysicalConfig(b.config)
  {
    PhysicalCoefficients(b.propag, b.ecartPic, b.config.gZ0, b.config.mZ0)
  }

  /** The configuration values `finalize` divides by are nonzero. */
  predicate PhysicalConfig(cfg: Configuration)
  {
    cfg.eTotal != 0.0 && cfg.mZ0 != 0.0 && cfg.gZ0 != 0.0
  }

  /** The common factor of every channel in `finalize`: the builder's common
      factor, the flux factor and the normalised event weight. */
  function FinalFactor(b: ResultsBuilder): real
    requires b.config.eTotal != 0.0
  {
    b.factCom * Flux(b.config) * b.normWeight
  }

  /** The scaled result vector of one spin state with polarisation factor `pol`. */
  function SpinResult(b: ResultsBuilder, pol: real): ResultVector
    requires PhysicalConfig(b.config)
  {
    ApplyCoefficients(Polarise(b.spm2, pol), FinalFactor(b), BuilderCoefficients(b))
  }

  /** The accumulated channels with the physical coefficients applied but no
      polarisation factor: the reference the two spin states are scaled from. */
  function Unpolarised(b: ResultsBuilder): ResultVector
    requires PhysicalConfig(b.config)
  {
    ApplyCoefficients(b.spm2, FinalFactor(b), BuilderCoefficients(b))
  }

  /** Both spin states of the accumulated channels, polarised and scaled. */
  function PolarisedSpins(b: ResultsBuilder): Spins
    requires PhysicalConfig(b.config)
  {
    Spins(SpinResult(b, PolMinus(b.config)), SpinResult(b, PolPlus(b.config)))
  }

  /** What the statistical significances divide by is nonzero: the sums over
      the two spins of the photon channel (also under the square root) and of
      the two anomalous channels. */
  predicate SignificanceDefined(s: Spins, sqrt: real -> real)
  {
    && s.neg.aa + s.pos.aa != 0.0
    && sqrt(s.neg.aa + s.pos.aa) != 0.0
    && s.neg.bbPlus + s.pos.bbPlus != 0.0
    && s.neg.bbMinus + s.pos.bbMinus != 0.0
  }

  /** What `finalize` needs to avoid dividing by zero: at least two events in
      the configuration, every accumulated channel and the accumulated cross
      section nonzero, the configuration's divisors nonzero, and the
      significances defined. */
  predicate Finalizable(b: ResultsBuilder, sqrt: real -> real)
  {
    && b.config.numEvents >= 2
    && (forall k :: 0 <= k < NUM_CHANNELS ==> b.spm2.At(k) != 0.0)
    && b.sigma != 0.0
    && PhysicalConfig(b.config)
    && SignificanceDefined(PolarisedSpins(b), sqrt)
  }

  /** The combined uncertainty of a statistical significance: the relative
      uncertainties of the anomalous channel `num` over the two spins, added in
      quadrature, plus the shared term of the photon channel. */
  function SignificanceUncertainty(numNeg: real, numPos: real, uNum: real, common: real, sqrt: real -> real): real
    requires numNeg + numPos != 0.0
  {
    sqrt(Sqr(numNeg * uNum) + Sqr(numPos * uNum)) / Abs(numNeg + numPos) + common
  }

  /** The minimal detectable coupling and the statistical significances of the
      two anomalous couplings, with their uncertainties. */
  datatype Significance = Significance(betaMin: real, ssP: real, incSsP: real, ssM: real, incSsM: real)

  /** A statistical significance: the sum of an anomalous channel over the two
      spins against the square root of the photon channel's sum `denom`. */
  function SignificanceRatio(numNeg: real, numPos: real, denom: real, sqrt: real -> real): real
    requires sqrt(denom) != 0.0
  {
    (numNeg + numPos) / (2.0 * sqrt(denom))
  }

  /** The photon channel's share of every significance uncertainty. */
  function SharedUncertainty(negAa: real, posAa: real, uAa: real, sqrt: real -> real): real
    requires negAa + posAa != 0.0
  {
    sqrt(Sqr(negAa * uAa) + Sqr(posAa * uAa)) / (2.0 * Abs(negAa + posAa))
  }

  /** The significances of the two polarised spin states `s`, whose channels
      have the relative uncertainties `u`. */
  function Significances(s: Spins, u: ResultVector, sqrt: real -> real): Significance
    requires SignificanceDefined(s, sqrt)
  {
    var neg, pos := s.neg, s.pos;
    var ssDenom := neg.aa + pos.aa;
    var common := SharedUncertainty(neg.aa, pos.aa, u.aa, sqrt);
    Significance(
      sqrt(ssDenom / (neg.bbPlus + pos.bbPlus)),
      SignificanceRatio(neg.bbPlus, pos.bbPlus, ssDenom, sqrt),
      SignificanceUncertainty(neg.bbPlus, pos.bbPlus, u.bbPlus, common, sqrt),
      SignificanceRatio(neg.bbMinus, pos.bbMinus, ssDenom, sqrt),
      SignificanceUncertainty(neg.bbMinus, pos.bbMinus, u.bbMinus, common, sqrt))
  }

  /** `ResultsBuilder::finalize`. */
  function Finalize(b: ResultsBuilder, sqrt: real -> real): (r: FinalResults)
    requires Finalizable(b, sqrt)
    ensures r.selectedEvents == b.selectedEvents && r.config == b.config
  {
    var cfg := b.config;
    var n := EventCount(cfg);
    var u := Uncertainties(b.spm2, b.vars, n, sqrt);
    var spins := PolarisedSpins(b);
    var sig := Significances(spins, u, sqrt);
    FinalResults(b.selectedEvents, spins, Spins(u, u), b.sigma * Flux(cfg),
                 RelativeUncertainty(b.sigma, b.variance, n, sqrt), SampleVariance(b.sigma, b.variance, n),
                 sig.betaMin, sig.ssP, sig.incSsP, sig.ssM, sig.incSsM, cfg)
  }

  /** The terms of the analytical cross section of `fawzi` as polynomials in the
      energy cut `eps`, the angular cut `del` and the beam-plane cut `sinCut`. */
  datatype FawziTerms = FawziTerms(f1: real, g1: real, g2: real, g3: real, ff: real, gg: real)

  function FawziPolynomials(eps: real, del: real, sinCut: real): FawziTerms
  {
    var eps4 := Powi(eps, 4);
    var del2 := Powi(del, 2);
    var del3 := Powi(del, 3);
    var f1 := 1.0 - 15.0 * eps4
      - 9.0 / 7.0 * (1.0 - 70.0 * eps4) * del2
      + 6.0 / 7.0 * (1.0 + 70.0 * eps4) * del3;
    var g1 := 1.0 - 30.0 * eps4
      - 9.0 / 7.0 * (1.0 - 70.0 * eps4) * del
      - 90.0 * eps4 * del2
      - 1.0 / 7.0 * (1.0 - 420.0 * eps4) * del3;
    var g2 := 1.0 - 25.0 * eps4
      - 6.0 / 7.0 * (1.0 - 70.0 * eps4) * del
      - 3.0 / 7.0 * (1.0 + 210.0 * eps4) * del2
      - 8.0 / 21.0 * (1.0 - 52.5 * eps4) * del3;
    var g3 := 1.0 - 195.0 / 11.0 * eps4
      - 18.0 / 77.0 * (1.0 - 7.0 * eps4) * del
      - 9.0 / 11.0 * (9.0 / 7.0 - 70.0 * eps4) * del2
      - 8.0 / 11.0 * (1.0 - 105.0 / 11.0 * eps4) * del3;
    var sinCut3 := Powi(sinCut, 3);
    var ff := f1 * (1.0 - sinCut3);
    var gg := g1 - 27.0 / 16.0 * g2 * sinCut + 11.0 / 16.0 * g3 * sinCut3;
    FawziTerms(f1, g1, g2, g3, ff, gg)
  }

  /** Distance from the Z⁰ pole, `1 - (m_Z/E)²`. */
  function PoleDistance(cfg: Configuration): real
    requires cfg.eTotal != 0.0
  {
    1.0 - Sqr(cfg.mZ0 / cfg.eTotal)
  }

  /** Width-mass product relative to the squared collision energy. */
  function RelativeWidth(cfg: Configuration): real
    requires cfg.eTotal != 0.0
  {
    SqrPositive(cfg.eTotal);
    cfg.gZ0 * cfg.mZ0 / Sqr(cfg.eTotal)
  }

  /** `norm_sqr` of the complex number `(x - i·gre) / (x² + gre²)`, divided
      component by component. */
  function PropagatorNormSqr(x: real, gre: real): real
    requires Sqr(x) + Sqr(gre) != 0.0
  {
    var d := Sqr(x) + Sqr(gre);
    Sqr(x / d) + Sqr(-gre / d)
  }

  /** The configuration values the prediction of `fawzi` divides by are nonzero. */
  predicate FawziDefined(cfg: Configuration)
  {
    cfg.eTotal != 0.0 && cfg.mZ0 != 0.0
    && Sqr(PoleDistance(cfg)) + Sqr(RelativeWidth(cfg)) != 0.0
  }

  /** The partial width factor `bra` of `fawzi`. */
  function FawziBranching(cfg: Configuration): real
  {
    PowiNonzero(PI, 3);
    cfg.mZ0 / (3.0 * 6.0 * Powi(PI, 3) * 16.0 * 120.0)
  }

  /** The leading factors of `sig`, up to the partial width. */
  function FawziPrefactor(cfg: Configuration): real
    requires cfg.mZ0 != 0.0
  {
    SqrPositive(cfg.mZ0);
    12.0 * PI / Sqr(cfg.mZ0) * cfg.branchingEpEm * cfg.gZ0 * FawziBranching(cfg)
  }

  /** The analytical cross section `sig` of `fawzi` before any cut. */
  function FawziSigma(cfg: Configuration): real
    requires FawziDefined(cfg)
  {
    SqrPositive(cfg.eTotal);
    var normSqr := PropagatorNormSqr(PoleDistance(cfg), RelativeWidth(cfg));
    FawziPrefactor(cfg) / Sqr(cfg.eTotal) * Powi(cfg.eTotal / cfg.mZ0, 8) * normSqr * cfg.gev2ToPicobarn
  }

  /** The analytical predictions of `fawzi`: the uncut cross section and the two
      cut cross sections it is compared with. */
  datatype FawziPrediction = FawziPrediction(sig: real, sigP: real, sigM: real, terms: FawziTerms)

  /** The two cut cross sections from the uncut one and the correction terms. */
  function FawziPredict(sig: real, t: FawziTerms): FawziPrediction
  {
    var sigP := sig * (t.ff + 2.0 * t.gg);
    var sigM := sigP + 2.0 * sig * t.gg;
    FawziPrediction(sig, sigP, sigM, t)
  }

  /** The energy cut `eps`: the minimal photon energy relative to the beam energy. */
  function EnergyCut(cfg: Configuration): real
    requires cfg.eTotal != 0.0
  {
    2.0 * cfg.eventCut.eMin / cfg.eTotal
  }

  /** The angular cut `del` between photons, from the cosine cut. */
  function AngularCut(cfg: Configuration): real
  {
    (1.0 - cfg.eventCut.photonPhotonCut) / 2.0
  }

  /** The pure part of `FinalResults::fawzi`: the analytical prediction for the
      configured energy and cuts. */
  function Fawzi(cfg: Configuration): FawziPrediction
    requires FawziDefined(cfg)
  {
    var terms := FawziPolynomials(EnergyCut(cfg), AngularCut(cfg), cfg.eventCut.beamPhotonPlaneCut);
    FawziPredict(FawziSigma(cfg), terms)
  }
}
