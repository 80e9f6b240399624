# 3photons result accumulation, numeric helpers and configuration loading, in Dafny

This project models three pieces of the `3photons` Monte-Carlo simulator
(e⁺e⁻ → γγγ), each over Dafny's mathematical reals and unbounded integers.

- **The result accumulator and finaliser** (`src/resfin.rs`):
  - `ResultsBuilder::new` derives the five per-channel cross-section weights, the Z⁰ propagator and the normalised event weight from the configuration.
  - `integrate` adds one event's five-channel contribution, its square, its weight and its squared weight to the running sums.
  - `finalize` turns the sums into the final results:
    - per-channel relative uncertainties;
    - two spin states, polarised with `pol_m` and `pol_p`;
    - the flux, common-factor and propagator scaling;
    - the minimal coupling and the two statistical significances, with their uncertainties;
    - the total cross section, its variance and its precision.
  - Also modelled: the pure polynomial prefix of `FinalResults::fawzi`, that is, the analytical cross section and its two cut variants.
- **The numeric helpers** (`src/numeric.rs`): `sqr`, and `powi`, which is exponentiation by squaring with a reciprocal branch for negative exponents.
- **Configuration loading** (`src/config.rs`), without the file reading:
  - the token stream, made of the first whitespace-delimited chunk of every non-blank line;
  - the decoding of exactly eighteen items in fixed order, which reports the first missing or unparsable item by name;
  - the Fortran-aware `parse_bool`;
  - the three `ensure!` checks: at least one event, no plotting, no result printing.

Modules:

| file | module | contents |
|---|---|---|
| `fallible.dfy` | `Fallible` | `Option` and `Result` with failure propagation |
| `numeric.dfy` | `Numeric` | `Sqr`, `Powi`, the reference power `Pow` and its algebra |
| `numeric_lemmas.dfy` | `NumericLemmas` | `Powi` against `Pow`; the negative branch |
| `channels.dfy` | `Channels` | the five-channel `ResultVector` and its vector operations |
| `config_tokens.dfy` | `ConfigTokens` | `str::lines`, `split_whitespace().next()`, the token stream |
| `config_tokens_lemmas.dfy` | `ConfigTokensLemmas` | the round trip from a written configuration file to its tokens |
| `config.dfy` | `Config` | the `Configuration` record, item decoding, `parse_bool`, the checks, `load` |
| `config_lemmas.dfy` | `ConfigLemmas` | exact characterisations of every outcome of `load` |
| `resfin.dfy` | `ResFin` | `new`, `integrate`, `finalize`, and the `fawzi` prediction |
| `resfin_lemmas.dfy` | `ResFinLemmas` | accumulation, consistency, finalisation and symmetry properties |

### One configuration record

`resfin.rs` reads the configuration under older field names than the ones
`config.rs` declares. The model has a single `Config.Configuration` record
with the `config.rs` names. The correspondence is:

| `resfin.rs` | `Configuration` |
|---|---|
| `e_tot` | `eTotal` |
| `convers` | `gev2ToPicobarn` |
| `sin2_w` | `sin2Weinberg` |
| `br_ep_em` | `branchingEpEm` |
| `event_cut.b_cut` | `eventCut.photonPhotonCut` |
| `event_cut.sin_cut` | `eventCut.beamPhotonPlaneCut` |

The beta-minus item's error messages call it `beta_moins`, exactly as `config.rs` does.

### Notes on `finalize`

- `finalize` divides by `cfg.num_events` (src/resfin.rs lines 163, 167 and 227-229), never by `selected_events`, and it checks neither count. The model does the same. `ResFinLemmas.FinalizeIgnoresSelectedCount` proves that the selected count influences nothing but its own copy in the results. `ResFin.Finalizable` states as a precondition that every divisor is nonzero, including `num_events - 1`.
- In the final results, the `vars` field holds relative uncertainties, not variances, because the code overwrites it in place. The model does the same.

## Model

| member | source | states |
|---|---|---|
| Numeric.Sqr | src/numeric.rs:33-37 | a square is never negative |
| Numeric.Abs | src/numeric.rs:29 | the absolute value is nonnegative, is ±x, and vanishes exactly at zero |
| Numeric.Powi | src/numeric.rs:41-50 | `powi` itself, with the same four branches. It excludes the exponent i32::MIN, whose negation overflows, and a negative exponent over a zero base. Its meaning is proved by `Numeric.PowiIsPow` and `NumericLemmas.PowiNegative` |
| Numeric.PowiIsPow | src/numeric.rs:41-50 | for every exponent 0 ≤ n ≤ i32::MAX, exponentiation by squaring equals the n-fold product x^n (by induction on the squaring recursion) |
| Numeric.PowSplit | src/numeric.rs:47 | the squaring step holds for the reference power: x^n = x^(n mod 2) · (x²)^(n div 2) |
| NumericLemmas.SqrIsPow | src/numeric.rs:33-37 | `sqr` is the second power |
| NumericLemmas.PowiReciprocal | src/numeric.rs:48 | for a negative exponent and a nonzero base, the positive power is nonzero and `powi(x, n)` is its reciprocal |
| NumericLemmas.PowiNegative | src/numeric.rs:48 | for a negative exponent, `powi(x, n)` is 1 / x^(-n) |
| NumericLemmas.PowiInverse | src/numeric.rs:48 | over a nonzero base, `powi(x, n) · powi(x, -n) = 1` |
| NumericLemmas.PowiNonzero | src/numeric.rs:41-50 | `powi` of a nonzero base never vanishes, for any exponent above i32::MIN |
| NumericLemmas.PowiZero | src/numeric.rs:44-47 | every positive power of zero is zero |
| Channels.Zero | src/resfin.rs:112 | the zero vector is zero on every channel |
| Channels.Add | src/resfin.rs:130 | the sum's channel k is the sum of the channels k |
| Channels.Squares | src/resfin.rs:131 | channel k is the square of channel k, and it is nonnegative |
| Channels.Dot | src/resfin.rs:132 | the event weight: the channels of a contribution weighted by `sigma_contribs`. `Channels.DotLinear` proves it linear |
| Channels.AddCommutesAndAssociates | src/resfin.rs:130 | accumulation is commutative and associative |
| Channels.AddZero | src/resfin.rs:112 | the zero vector is the identity of accumulation |
| Channels.DotLinear | src/resfin.rs:132 | the event weight is linear in the contribution, and zero for the zero vector |
| ConfigTokens.IsWhitespace | src/config.rs:71 | the separator of `split_whitespace`: the characters with Unicode's White_Space property, as `char::is_whitespace` defines them |
| ConfigTokens.IndexOf | src/config.rs:70 | the position found is the first line feed |
| ConfigTokens.StripCr | src/config.rs:70 | a line ending in a carriage return loses exactly that one character; any other line is unchanged |
| ConfigTokens.Lines | src/config.rs:70 | no line contains a line feed, and there are no more lines than characters |
| ConfigTokens.TrimStart | src/config.rs:71 | exactly a blank prefix is removed, and what remains starts with non-whitespace or is empty |
| ConfigTokens.TakeWord | src/config.rs:71 | the result is the longest whitespace-free prefix |
| ConfigTokens.FirstWord | src/config.rs:71 | a line has no first chunk exactly when it is blank; otherwise the chunk is a nonempty whitespace-free word |
| ConfigTokens.FirstWords | src/config.rs:69-71 | every token is a word, and there is at most one per line |
| ConfigTokens.Tokens | src/config.rs:69-71 | every token of a file is a nonempty whitespace-free word |
| ConfigTokensLemmas.TrimStartBlankPrefix | src/config.rs:71 | indentation in front of a word is all that trimming removes |
| ConfigTokensLemmas.TakeWordOfWord | src/config.rs:71 | a word followed by whitespace or by nothing is taken whole |
| ConfigTokensLemmas.FirstWordOfParts | src/config.rs:71 | indentation, an item and a separated comment yield the item |
| ConfigTokensLemmas.FirstWordOfItemLine | src/config.rs:69-71 | an item line yields its item, with or without a CRLF ending |
| ConfigTokensLemmas.FirstWordOfBlankLine | src/config.rs:69-71 | a blank line yields no token |
| ConfigTokensLemmas.LinesCons | src/config.rs:70 | the first line ends at the first line feed and loses a trailing carriage return, and the rest is cut the same way |
| ConfigTokensLemmas.LinesOfRenderThen | src/config.rs:70 | lines that each end in a line feed, followed by an unterminated rest, are cut back into those lines and then the rest's lines |
| ConfigTokensLemmas.LinesOfRender | src/config.rs:70 | cutting a written file at line feeds gives back its lines |
| ConfigTokensLemmas.FirstWordsOfTexts | src/config.rs:71 | the first chunks of the lines are the items, in order, with blank lines skipped |
| ConfigTokensLemmas.LastLineTokens | src/config.rs:69-71 | a last line without a line feed, which keeps any carriage return, yields its item, or nothing if it is blank |
| ConfigTokensLemmas.TokensOfRenderThen | src/config.rs:69-71 | lines that each end in a line feed, followed by an unterminated last line, yield all their items in order |
| ConfigTokensLemmas.TokensOfRender | src/config.rs:69-71 | the round trip: the tokens of a written configuration file are exactly its items, in order, whether or not the last line ends in a line feed |
| Config.FieldName | src/config.rs:85-104 | the eighteen item names, in file order, that the error messages use. `beta_minus` is named `beta_moins` |
| Config.Message | src/config.rs:111-124 | the text of each error: the three fixed check messages, "Missing configuration of" (config.rs line 80) or "Could not parse configuration of" (config.rs line 178) followed by the item's name |
| Config.ToLower | src/config.rs:188 | lower-casing keeps the length and lower-cases each character in place |
| Config.ParseStdBool | src/config.rs:193 | the standard parser accepts exactly "true" and "false" |
| Config.ParseBool | src/config.rs:187-195 | true exactly for `.true.` in any case or the exact text "true"; false exactly for `.false.` in any case or "false" |
| Config.ParseItem | src/config.rs:171-179 | a decoded item has its field's type, and a failure is tagged with that field |
| Config.ParseFrom | src/config.rs:84-104 | a successful parse yields one value per remaining item; a failure is a missing or unparsable item at or after the start |
| Config.ParseFromItem | src/config.rs:84-104 | the j-th value of a successful parse is the j-th token decoded as item j |
| Config.ParseFromKinds | src/config.rs:84-104 | every value of a successful parse has its item's type |
| Config.FieldValue | src/config.rs:8-53 | the value a field holds has the field's type |
| Config.Assemble | src/config.rs:84-105 | the assembled record holds the k-th decoded value in its k-th field |
| Config.Validate | src/config.rs:111-124 | a configuration passes exactly when it has events, no plotting and no printing, and it passes unchanged |
| Config.LoadTokens | src/config.rs:57-128 | a loaded configuration has events, no plotting and no printing |
| Config.Load | src/config.rs:57-128 | the same, for the text of a configuration file |
| ConfigLemmas.ParseFromSucceeds | src/config.rs:84-104 | decoding succeeds exactly when every remaining item has a token that parses |
| ConfigLemmas.ParseFromMissing | src/config.rs:76-81 | item f is reported missing exactly when the stream ends at f and every earlier item parses |
| ConfigLemmas.ParseFromUnparsable | src/config.rs:171-179 | item f is reported unparsable exactly when it is the first item whose token does not parse |
| ConfigLemmas.ParseFromIgnoresExtra | src/config.rs:84-105 | tokens after the eighteenth do not change decoding |
| ConfigLemmas.FieldValuesDetermine | src/config.rs:8-53 | a configuration is determined by its eighteen item values |
| ConfigLemmas.LoadedEncodes | src/config.rs:84-104 | if loading yields c, the first eighteen tokens decode to the fields of c |
| ConfigLemmas.EncodedLoads | src/config.rs:84-127 | if the tokens decode to a c that passes the checks, loading yields c |
| ConfigLemmas.LoadSucceeds | src/config.rs:57-128 | loading yields c exactly when the tokens decode to c and c passes the three checks |
| ConfigLemmas.LoadMissing | src/config.rs:76-81 | loading reports item f missing exactly when the stream holds f tokens that all parse |
| ConfigLemmas.LoadUnparsable | src/config.rs:171-179 | loading reports item f unparsable exactly when its token is the first that does not parse |
| ConfigLemmas.ParsedChecks | src/config.rs:111-124 | once every item parses, the event count and the two flags alone decide the outcome, checked in source order |
| ConfigLemmas.LoadNoEvents | src/config.rs:111 | zero events are reported exactly when all items parse and the event count is zero |
| ConfigLemmas.LoadPlotting | src/config.rs:115 | plotting is reported exactly when all items parse, the event count is nonzero and the plot flag is true |
| ConfigLemmas.LoadPrinting | src/config.rs:120-124 | printing is reported exactly when all items parse, the count is nonzero, the plot flag is false and the print flag is true |
| ConfigLemmas.LoadIgnoresExtra | src/config.rs:84-105 | tokens after the eighteenth never change the outcome of loading |
| ConfigLemmas.ParseBoolFortranTrue | src/config.rs:190 | `.TRUE.` is accepted as true, whatever its case |
| ConfigLemmas.ParseBoolFortranFalse | src/config.rs:191 | `.False.` is accepted as false, whatever its case |
| ConfigLemmas.ParseBoolStandard | src/config.rs:193 | "true" is accepted, but "TRUE" and "yes" are rejected, because the standard parser sees the original text |
| ResFin.New | src/resfin.rs:71-124 | a fresh builder has no events, zero sums and zero sums of squares, and keeps its configuration |
| ResFin.EcartPic | src/resfin.rs:74-88 | the peak distance `((E/m_Z)² − 1) / (Γ_Z/m_Z)`. `ResFinLemmas.EcartPicMeaning` proves it measures E² − m_Z² in units of Γ_Z·m_Z |
| ResFin.Propagator | src/resfin.rs:89 | the Z⁰ propagator `1 / (1 + ecart²)`. `ResFinLemmas.PropagatorBounds` proves it lies in (0, 1] |
| ResFin.NormWeight | src/resfin.rs:92-95 | the event weight times `(2π)^(4−3·3)` divided by `num_events` |
| ResFin.SigmaContribs | src/resfin.rs:73-107 | the five per-channel weights. `ResFinLemmas.NewInterference` and `ResFinLemmas.NewAnomalousRatio` prove how they relate |
| ResFin.Integrate | src/resfin.rs:127-135 | the counter rises by exactly one; the sums of squares and the variance never decrease; the weights and constants are unchanged |
| ResFin.IntegrateAll | src/resfin.rs:127-135 | after k events the counter has risen by k, and the weights and constants are unchanged |
| ResFin.Uncertainties | src/resfin.rs:165-169 | channel k holds the relative uncertainty of the k-th sum and sum of squares |
| ResFin.SampleVariance | src/resfin.rs:167 | the two-pass unbiased variance `(v − s²/n)/(n − 1)` of a channel, the same formula as for the total at lines 227-228. `ResFinLemmas.SampleVarianceNonnegative` and `ResFinLemmas.FinalizeVarianceNonnegative` prove it nonnegative for a consistent builder |
| ResFin.RelativeUncertainty | src/resfin.rs:168 | the standard error of the mean over the absolute mean, as for `prec` at line 229. `ResFinLemmas.FinalizeUncertainties` proves both spins carry it, channel by channel, over `num_events` |
| ResFin.PolPlus | src/resfin.rs:177 | the polarisation factor `pol_p = −2·sin²θ_W` of the `pos` spin. `ResFinLemmas.FinalizePolarisation` proves it polarises that spin |
| ResFin.PolMinus | src/resfin.rs:178 | the polarisation factor `pol_m = 1 + pol_p` of the `neg` spin. `ResFinLemmas.FinalizePolarisation` proves it polarises that spin and that `pol_m − pol_p = 1` |
| ResFin.Flux | src/resfin.rs:191 | the flux factor `1/(2E²)`. `ResFinLemmas.FinalizeSigma` proves the final cross section times 2E² is the accumulated one |
| ResFin.Polarise | src/resfin.rs:177-188 | a polarisation factor applied to one spin state. `ResFinLemmas.PolariseChannels` gives it channel by channel |
| ResFin.PhysicalCoefficients | src/resfin.rs:193-204 | the per-channel propagator and mass scaling: 1, `propag/(Γm)²` twice, `propag·ecart/(Γm)` and `propag/(Γm)` |
| ResFin.Significances | src/resfin.rs:206-225 | `beta_min`, `ss_p`, `ss_m` and their uncertainties from the two spin states and the relative uncertainties. `ResFinLemmas.SwapSignificances` proves the β₊/β₋ symmetry |
| ResFin.Finalize | src/resfin.rs:143-156 | the selected count and the configuration pass through unchanged |
| ResFinLemmas.PropagatorBounds | src/resfin.rs:89 | the propagator lies in (0, 1] and is the reciprocal of 1 + ecart² |
| ResFinLemmas.EcartPicMeaning | src/resfin.rs:74-88 | the peak distance times Γ_Z·m_Z is E² − m_Z² |
| ResFinLemmas.NewPropagator | src/resfin.rs:87-89 | the recorded propagator belongs to the recorded peak distance, which measures E² − m_Z² in units of Γ_Z·m_Z |
| ResFinLemmas.NewInterference | src/resfin.rs:99-107 | the real interference weight is −ecart_pic times the imaginary one |
| ResFinLemmas.NewAnomalousRatio | src/resfin.rs:101-105 | the two anomalous weights are in the ratio β₊² : β₋² |
| ResFinLemmas.IntegrateAllSums | src/resfin.rs:127-135 | integrating a stream adds to each running sum the matching independently defined sum of the stream |
| ResFinLemmas.IntegrateFromNew | src/resfin.rs:103-135 | from a fresh builder, the count is the stream length and the running sums are exactly the reference sums |
| ResFinLemmas.IntegrateCommutes | src/resfin.rs:127-135 | two events integrated in either order give the same builder |
| ResFinLemmas.IntegrateAllAppend | src/resfin.rs:127-135 | integrating a stream in two pieces is integrating it whole |
| ResFinLemmas.IntegrateZeros | src/resfin.rs:127-135 | all-zero contributions are counted but change no sum, so `sigma` and `variance` stay zero from a fresh builder |
| ResFinLemmas.CauchyStep | src/resfin.rs:128-134 | adding a term and its square keeps s² ≤ n·v with one more term |
| ResFinLemmas.NewConsistent | src/resfin.rs:110-116 | a fresh builder satisfies the Cauchy–Schwarz bound on every sum |
| ResFinLemmas.IntegrateConsistent | src/resfin.rs:127-135 | `integrate` preserves the bound on every channel and on the cross section |
| ResFinLemmas.IntegrateAllConsistent | src/resfin.rs:127-135 | any stream of events preserves the bound |
| ResFinLemmas.SampleVarianceNonnegative | src/resfin.rs:167 | the two-pass variance over n values is nonnegative when at most n terms were summed |
| ResFinLemmas.FinalizeVarianceNonnegative | src/resfin.rs:227-228 | for a consistent builder with no more selected than configured events, the total and every per-channel variance are nonnegative |
| ResFinLemmas.FinalizeUncertainties | src/resfin.rs:165-173 | both spins carry the same relative uncertainties, computed from the sums over the configured event count |
| ResFinLemmas.FinalizeSigma | src/resfin.rs:190-230 | the final cross section times 2·E² is the accumulated cross section |
| ResFinLemmas.FinalizeIgnoresSelectedCount | src/resfin.rs:144-163 | changing the selected count changes nothing in the results except its own copy |
| ResFinLemmas.SpinsIgnoreSelectedCount | src/resfin.rs:172-204 | the scaled spin states do not depend on the selected count |
| ResFinLemmas.PolariseCommutes | src/resfin.rs:181-204 | polarising before or after the flux and propagator scaling gives the same vector |
| ResFinLemmas.PolariseChannels | src/resfin.rs:181-188 | polarisation keeps channel 0, scales channels 1–2 by the squared factor and channels 3–4 by the factor |
| ResFinLemmas.FinalizePolarisation | src/resfin.rs:172-204 | the two spins are one unpolarised vector polarised with `pol_m` and `pol_p`; channel 0 agrees; `pol_m − pol_p = 1` |
| ResFinLemmas.SwapPolarisedSpins | src/resfin.rs:172-204 | exchanging the accumulated anomalous channels exchanges them in both scaled spins |
| ResFinLemmas.SwapUncertainties | src/resfin.rs:165-169 | exchanging the anomalous sums exchanges their uncertainties |
| ResFinLemmas.SwapSignificances | src/resfin.rs:209-225 | exchanging the anomalous channels exchanges `ss_p` and `ss_m` and their uncertainties |
| ResFinLemmas.FinalizeSwapsAnomalous | src/resfin.rs:206-225 | the β₊ and β₋ sides of `finalize` are symmetric: swapping their accumulated channels swaps the significances |
| ResFinLemmas.FinalizeSymmetric | src/resfin.rs:209-225 | with equal anomalous sums and sums of squares, `ss_p = ss_m` and `inc_ss_p = inc_ss_m` |
| ResFin.FawziSigma | src/resfin.rs:321-331 | the uncut analytical cross section `sig`. `ResFinLemmas.PropagatorNormSqrInverse` evaluates its `norm_sqr` factor |
| ResFin.FawziPolynomials | src/resfin.rs:333-354 | the correction polynomials f1, g1, g2 and g3 in the cuts, with the coefficients of the source, and their combinations ff and gg. `ResFinLemmas.FawziPolynomialsNoCuts` proves they are all one without cuts |
| ResFin.Fawzi | src/resfin.rs:321-357 | the prediction `sig`, `sig_p`, `sig_m` for the configured energy and cuts. `ResFinLemmas.FawziNoCuts` reduces it to the uncut case |
| ResFinLemmas.PropagatorNormSqrInverse | src/resfin.rs:321-330 | the squared modulus `fawzi` computes is 1 / (x² + gre²) |
| ResFinLemmas.FawziPolynomialsNoCuts | src/resfin.rs:333-354 | with eps = del = sin_cut = 0, i.e. no cuts (del = 0 is `photon_photon_cut` = 1), f1, g1, g2, g3, ff and gg all equal one |
| ResFinLemmas.FawziPredictUncorrected | src/resfin.rs:356-357 | with every correction term one, `sig_p = 3·sig` and `sig_m = 5·sig` |
| ResFinLemmas.FawziNoCuts | src/resfin.rs:321-357 | without cuts, the prediction is the uncut cross section with unit correction terms |

## Left out

- File reading, `print!`, `println!` and the `Display` implementation are input/output and text formatting. `Config.Load` starts from the file's text.
- Rust's `FromStr` for `usize`, `f64` and `i32` is library number parsing. It is a parameter (`Config.NumberParsers`) of three partial functions, and nothing is assumed about them.
- IEEE-754 floating point is not modelled: no rounding, no NaN or infinity, and no order of summation. Every float is a real. Every division the source performs becomes a nonzero precondition: by `n` (`ResFin.NormWeight` requires `num_events > 0`), by `n − 1`, by `sum/n`, by the significance denominators, by `e_tot`, by `m_z0`, by `g_z0` and by `x² + gre²` in `fawzi` (`ResFin.FawziDefined`). Where a division in the source would produce NaN or infinity, the model has no result.
- A negative argument of `sqrt` (NaN in the source) is not excluded: in `beta_min` at src/resfin.rs:206-207 when the photon sum and the β₊ sum differ in sign, and in `ss_p` and `ss_m` at src/resfin.rs:211-212 when the denominator is negative. The argument reaches the `sqrt` parameter, and the model gives whatever result that parameter returns.
- `ResFinLemmas.IntegrateCommutes`, `ResFinLemmas.IntegrateAllAppend` and `Channels.AddCommutesAndAssociates` hold for reals. In floating point the order of summation changes the last bits.
- `sqrt` is a parameter `real -> real` of `ResFin.Finalize` and the finalisation helpers it calls (`ResFin.RelativeUncertainty`, `ResFin.Uncertainties`, `ResFin.SignificanceUncertainty`, `ResFin.Significances`, `ResFin.SignificanceDefined`, `ResFin.Finalizable`). `fawzi` does not take it. The only assumption about `sqrt` is that it is nonzero at the significance denominator, the photon channel summed over both spins (`ResFin.SignificanceDefined`, part of `ResFin.Finalizable`). The values of `beta_min`, `ss_p`, `ss_m` and their uncertainties are therefore modelled structurally, through their symmetry, not numerically.
- `Complex::norm_sqr` is computed on the real and imaginary parts directly (`ResFin.PropagatorNormSqr`).
- `to_lowercase` is modelled on ASCII letters only. Non-ASCII letters in a boolean item are left unchanged.
- `ResultContribution::m2_sums`, `rescont`, `event` and `evcut` are not part of this model. The five-channel contribution is an input, and `OUTGOING_COUNT` is the constant 3.
- The printing parts of `fawzi` are left out, along with its comparison with the Monte-Carlo values (`mc_p`, `mc_m`, `incr_p`, `incr_m`) and the whole of `eric`.
- `ResFin.Integrate`: `selected_events` is an `i32`. The model requires it to be below `i32::MAX` rather than modelling the overflow.
- `Numeric.Powi`: the exponent `i32::MIN` is excluded, because negating it overflows. A negative exponent over a zero base is excluded, because it divides by zero. The `Reciprocal` helper's zero case is never reached (`NumericLemmas.PowiNonzero`).
- `ResFin.Finalize`: its own contract states only what passes through. The computed fields are described by the `ResFinLemmas` members listed above.
- The `Display` names (`ITOT`, `ETOT`, …) and the ownership and borrowing of the configuration are not modelled. The configuration is copied into the builder and the results.
