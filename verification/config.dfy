/** The simulation configuration (`config.rs`): the record, the ordered decoding
    of its eighteen items from the token stream, the Fortran-aware boolean
    parser, and the checks that reject unsupported settings. */
module Config {
  import opened Fallible
  import opened Numeric
  import ConfigTokens

  /** `usize` on the 64-bit targets the simulator runs on. */
  newtype USize = n: int | 0 <= n < 0x1_0000_0000_0000_0000

  /** Values representable in an `i32`. */
  type I32 = n: int | I32_MIN <= n <= I32_MAX

  /** Cuts on the angles and energies of the generated photons, stored in the
      order `EventCut::new` receives them. `photonPhotonCut` is the `b_cut` and
      `beamPhotonPlaneCut` the `sin_cut` that `resfin.rs` reads. */
  datatype EventCut = EventCut(
    beamPhotonsCut: real,
    photonPhotonCut: real,
    eMin: real,
    beamPhotonPlaneCut: real)

  /** The simulation configuration. `resfin.rs` reads some of these fields under
      older names: `e_tot` is `eTotal`, `convers` is `gev2ToPicobarn`, `sin2_w`
      is `sin2Weinberg` and `br_ep_em` is `branchingEpEm`. */
  datatype Configuration = Configuration(
    numEvents: USize,
    eTotal: real,
    eventCut: EventCut,
    alpha: real,
    alphaZ: real,
    gev2ToPicobarn: real,
    mZ0: real,
    gZ0: real,
    sin2Weinberg: real,
    branchingEpEm: real,
    betaPlus: real,
    betaMinus: real,
    numBins: I32,
    impr: bool,
    plot: bool)

  /** Number of items a configuration file must provide. */
  const FIELD_COUNT: nat := 18

  /** A configuration item, identified by its position in the file. */
  type Field = i: nat | i < FIELD_COUNT

  const NUM_EVENTS: Field := 0
  const E_TOTAL: Field := 1
  const BEAM_PHOTONS_CUT: Field := 2
  const PHOTON_PHOTON_CUT: Field := 3
  const E_MIN: Field := 4
  const BEAM_PHOTON_PLANE_CUT: Field := 5
  const ALPHA: Field := 6
  const ALPHA_Z: Field := 7
  const GEV2_TO_PICOBARN: Field := 8
  const M_Z0: Field := 9
  const G_Z0: Field := 10
  const SIN2_WEINBERG: Field := 11
  const BRANCHING_EP_EM: Field := 12
  const BETA_PLUS: Field := 13
  const BETA_MINUS: Field := 14
  const NUM_BINS: Field := 15
  const IMPR: Field := 16
  const PLOT: Field := 17

  /** The name an error message uses for an item. The beta-minus item is
      reported as `beta_moins`. */
  function FieldName(f: Field): string
  {
    ["num_events", "e_total", "beam_photons_cut", "photon_photon_cut", "e_min",
     "beam_photon_plane_cut", "alpha", "alpha_z", "gev2_to_picobarn", "m_z0", "g_z0",
     "sin2_weinberg", "branching_ep_em", "beta_plus", "beta_moins", "num_bins",
     "impr", "plot"][f]
  }

  /** The Rust type an item is parsed as. */
  datatype Kind = USizeKind | FloatKind | I32Kind | BoolKind

  function KindOf(f: Field): Kind
  {
    if f == NUM_EVENTS then USizeKind
    else if f == NUM_BINS then I32Kind
    else if f == IMPR || f == PLOT then BoolKind
    else FloatKind
  }

  /** A decoded item. */
  datatype Value = USizeValue(n: USize) | FloatValue(x: real) | I32Value(i: I32) | BoolValue(b: bool)
  {
    function Kind(): Kind
    {
      match this
      case USizeValue(_) => USizeKind
      case FloatValue(_) => FloatKind
      case I32Value(_) => I32Kind
      case BoolValue(_) => BoolKind
    }
  }

  /** Why loading failed. */
  datatype LoadError =
    | Missing(field: Field)
    | Unparsable(field: Field)
    | NoEvents
    | PlottingUnsupported
    | PrintingUnsupported

  /** The error text of each failure. */
  function Message(e: LoadError): string
  {
    match e
    case Missing(f) => "Missing configuration of " + FieldName(f)
    case Unparsable(f) => "Could not parse configuration of " + FieldName(f)
    case NoEvents => "Please simulate at least one event"
    case PlottingUnsupported => "Plotting is not supported by this version"
    case PrintingUnsupported =>
      "Individual result printing is not supported. This debugging feature has a run-time "
      + "performance cost even when unused. It should be implemented at compile-time instead."
  }

  /** The standard library's number parsers (`FromStr` for `usize`, `f64` and
      `i32`), taken as given partial functions: `None` is a parse error. */
  datatype NumberParsers = NumberParsers(
    parseUSize: string -> Option<USize>,
    parseFloat: string -> Option<real>,
    parseI32: string -> Option<I32>)

  /** ASCII lower-casing of one character. */
  function LowerChar(c: char): char
  {
    if 'A' <= c <= 'Z' then (c as int + 32) as char else c
  }

  /** `to_lowercase`, on ASCII letters. */
  function ToLower(s: string): (r: string)
    ensures |r| == |s|
    ensures forall i :: 0 <= i < |s| ==> r[i] == LowerChar(s[i])
  {
    if s == [] then [] else [LowerChar(s[0])] + ToLower(s[1..])
  }

  /** The standard `bool` parser: exactly "true" or "false". */
  function ParseStdBool(s: string): (r: Option<bool>)
    ensures r == Some(true) <==> s == "true"
    ensures r == Some(false) <==> s == "false"
    ensures r.None? <==> s != "true" && s != "false"
  {
    if s == "true" then Some(true) else if s == "false" then Some(false) else None
  }

  /** `ConfigItem::parse_bool`: Fortran's `.true.` and `.false.` in any letter
      case; otherwise the original (not lower-cased) text goes to the standard
      parser, so `TRUE` is rejected while `.TRUE.` is accepted. */
  function ParseBool(data: string): (r: Option<bool>)
    ensures r == Some(true) <==> ToLower(data) == ".true." || data == "true"
    ensures r == Some(false) <==> ToLower(data) == ".false." || data == "false"
  {
    match ToLower(data)
    case ".true." => Some(true)
    case ".false." => Some(false)
    case _ => ParseStdBool(data)
  }

  /** `next_item(name)?.parse()`: decodes one token as the item's type; a parse
      failure is tagged with the item. */
  function ParseItem(f: Field, token: string, p: NumberParsers): (r: Result<Value, LoadError>)
    ensures r.Success? ==> r.value.Kind() == KindOf(f)
    ensures r.Failure? ==> r.error == Unparsable(f)
  {
    match KindOf(f)
    case USizeKind =>
      (match p.parseUSize(token) case Some(n) => Success(USizeValue(n)) case None => Failure(Unparsable(f)))
    case FloatKind =>
      (match p.parseFloat(token) case Some(x) => Success(FloatValue(x)) case None => Failure(Unparsable(f)))
    case I32Kind =>
      (match p.parseI32(token) case Some(i) => Success(I32Value(i)) case None => Failure(Unparsable(f)))
    case BoolKind =>
      (match ParseBool(token) case Some(b) => Success(BoolValue(b)) case None => Failure(Unparsable(f)))
  }

  /** `token` decodes to `v` as item `f`. */
  predicate ParsedAs(f: Field, token: string, p: NumberParsers, v: Value)
  {
    ParseItem(f, token, p) == Success(v)
  }

  /** Item `i` has a token and that token parses. */
  predicate Parses(tokens: seq<string>, i: nat, p: NumberParsers)
  {
    i < |tokens| && i < FIELD_COUNT && ParseItem(i, tokens[i], p).Success?
  }

  /** Items `i` up to (excluding) `k` all have tokens that parse. */
  predicate ParsesBetween(tokens: seq<string>, i: nat, k: nat, p: NumberParsers)
  {
    forall j :: i <= j < k ==> Parses(tokens, j, p)
  }

  /** Fetches and decodes items `i`, `i+1`, ... in order, stopping at the first
      item without a token or whose token does not parse. */
  function ParseFrom(tokens: seq<string>, i: nat, p: NumberParsers): (r: Result<seq<Value>, LoadError>)
    requires i <= FIELD_COUNT
    ensures r.Success? ==> |r.value| == FIELD_COUNT - i
    ensures r.Failure? ==> (r.error.Missing? || r.error.Unparsable?) && i <= r.error.field
    decreases FIELD_COUNT - i
  {
    if i == FIELD_COUNT then Success([])
    else if i >= |tokens| then Failure(Missing(i))
    else
      match ParseItem(i, tokens[i], p)
      case Failure(e) => Failure(e)
      case Success(v) =>
        match ParseFrom(tokens, i + 1, p)
        case Failure(e) => Failure(e)
        case Success(rest) => Success([v] + rest)
  }

  /** Each value `ParseFrom` yields is its item's token, decoded. */
  lemma {:induction false} ParseFromItem(tokens: seq<string>, i: nat, p: NumberParsers, j: nat)
    requires i <= j < FIELD_COUNT
    requires ParseFrom(tokens, i, p).Success?
    ensures j < |tokens| && ParsedAs(j, tokens[j], p, ParseFrom(tokens, i, p).value[j - i])
    decreases j - i
  {
    var vs := ParseFrom(tokens, i, p).value;
    var rest := ParseFrom(tokens, i + 1, p);
    assert ParseItem(i, tokens[i], p).Success? && rest.Success?;
    assert vs == [ParseItem(i, tokens[i], p).value] + rest.value;
    if j > i {
      ParseFromItem(tokens, i + 1, p, j);
      assert vs[j - i] == rest.value[j - (i + 1)];
    }
  }

  /** Every value of a successful parse has its item's kind. */
  lemma ParseFromKinds(tokens: seq<string>, p: NumberParsers)
    requires ParseFrom(tokens, 0, p).Success?
    ensures forall j {:trigger ParseFrom(tokens, 0, p).value[j]} :: 0 <= j < FIELD_COUNT ==>
              ParseFrom(tokens, 0, p).value[j].Kind() == KindOf(j)
  {
    var vs := ParseFrom(tokens, 0, p).value;
    forall j | 0 <= j < FIELD_COUNT
      ensures vs[j].Kind() == KindOf(j)
    {
      ParseFromItem(tokens, 0, p, j);
    }
  }

  /** The value a configuration holds for an item. */
  function FieldValue(c: Configuration, f: Field): (v: Value)
    ensures v.Kind() == KindOf(f)
  {
    match f
    case 0 => USizeValue(c.numEvents)
    case 1 => FloatValue(c.eTotal)
    case 2 => FloatValue(c.eventCut.beamPhotonsCut)
    case 3 => FloatValue(c.eventCut.photonPhotonCut)
    case 4 => FloatValue(c.eventCut.eMin)
    case 5 => FloatValue(c.eventCut.beamPhotonPlaneCut)
    case 6 => FloatValue(c.alpha)
    case 7 => FloatValue(c.alphaZ)
    case 8 => FloatValue(c.gev2ToPicobarn)
    case 9 => FloatValue(c.mZ0)
    case 10 => FloatValue(c.gZ0)
    case 11 => FloatValue(c.sin2Weinberg)
    case 12 => FloatValue(c.branchingEpEm)
    case 13 => FloatValue(c.betaPlus)
    case 14 => FloatValue(c.betaMinus)
    case 15 => I32Value(c.numBins)
    case 16 => BoolValue(c.impr)
    case _ => BoolValue(c.plot)
  }

  /** Builds the record from the eighteen decoded items, in file order. */
  function Assemble(vs: seq<Value>): (c: Configuration)
    requires |vs| == FIELD_COUNT
    requires forall j {:trigger vs[j]} :: 0 <= j < FIELD_COUNT ==> vs[j].Kind() == KindOf(j)
    ensures forall f: Field :: FieldValue(c, f) == vs[f]
  {
    assert vs[0].Kind() == KindOf(0) && vs[1].Kind() == KindOf(1);
    assert vs[2].Kind() == KindOf(2) && vs[3].Kind() == KindOf(3);
    assert vs[4].Kind() == KindOf(4) && vs[5].Kind() == KindOf(5);
    assert vs[6].Kind() == KindOf(6) && vs[7].Kind() == KindOf(7);
    assert vs[8].Kind() == KindOf(8) && vs[9].Kind() == KindOf(9);
    assert vs[10].Kind() == KindOf(10) && vs[11].Kind() == KindOf(11);
    assert vs[12].Kind() == KindOf(12) && vs[13].Kind() == KindOf(13);
    assert vs[14].Kind() == KindOf(14) && vs[15].Kind() == KindOf(15);
    assert vs[16].Kind() == KindOf(16) && vs[17].Kind() == KindOf(17);
    Configuration(
      vs[0].n, vs[1].x,
      EventCut(vs[2].x, vs[3].x, vs[4].x, vs[5].x),
      vs[6].x, vs[7].x, vs[8].x, vs[9].x, vs[10].x, vs[11].x, vs[12].x,
      vs[13].x, vs[14].x, vs[15].i, vs[16].b, vs[17].b)
  }

  /** The three `ensure!` checks, in source order. */
  function Validate(c: Configuration): (r: Result<Configuration, LoadError>)
    ensures r.Success? <==> c.numEvents > 0 && !c.plot && !c.impr
    ensures r.Success? ==> r.value == c
  {
    if c.numEvents == 0 then Failure(NoEvents)
    else if c.plot then Failure(PlottingUnsupported)
    else if c.impr then Failure(PrintingUnsupported)
    else Success(c)
  }

  /** `Configuration::load` after the file has been read into tokens. */
  function LoadTokens(tokens: seq<string>, p: NumberParsers): (r: Result<Configuration, LoadError>)
    ensures r.Success? ==> r.value.numEvents > 0 && !r.value.plot && !r.value.impr
  {
    var vs :- ParseFrom(tokens, 0, p);
    ParseFromKinds(tokens, p);
    Validate(Assemble(vs))
  }

  /** `Configuration::load` on the text of the configuration file. */
  function Load(text: string, p: NumberParsers): (r: Result<Configuration, LoadError>)
    ensures r.Success? ==> r.value.numEvents > 0 && !r.value.plot && !r.value.impr
  {
    LoadTokens(ConfigTokens.Tokens(text), p)
  }
}
