/** What `Configuration::load` promises about the token stream it consumes:
    which streams load, which error each failing stream produces, and that
    tokens past the eighteenth are never looked at. */
module ConfigLemmas {
  import opened Fallible
  import opened Config

  /** Decoding from item `i` on succeeds exactly when every remaining item has
      a token that parses. */
  lemma {:induction false} ParseFromSucceeds(tokens: seq<string>, i: nat, p: NumberParsers)
    requires i <= FIELD_COUNT
    ensures ParseFrom(tokens, i, p).Success? <==> ParsesBetween(tokens, i, FIELD_COUNT, p)
    decreases FIELD_COUNT - i
  {
    if i < FIELD_COUNT {
      ParseFromSucceeds(tokens, i + 1, p);
      if ParsesBetween(tokens, i + 1, FIELD_COUNT, p) && Parses(tokens, i, p) {
        assert ParsesBetween(tokens, i, FIELD_COUNT, p) by {
          forall j | i <= j < FIELD_COUNT
            ensures Parses(tokens, j, p)
          {
            if j > i { assert i + 1 <= j < FIELD_COUNT; }
          }
        }
      }
      if ParsesBetween(tokens, i, FIELD_COUNT, p) {
        assert Parses(tokens, i, p);
      }
    }
  }

  /** Decoding from item `i` on reports item `f` missing exactly when the stream
      ends at `f` and the items from `i` up to `f` all parse. */
  lemma {:induction false} ParseFromMissing(tokens: seq<string>, i: nat, p: NumberParsers, f: Field)
    requires i <= FIELD_COUNT && i <= |tokens|
    ensures ParseFrom(tokens, i, p) == Failure(Missing(f)) <==>
              i <= f && f == |tokens| && ParsesBetween(tokens, i, f, p)
    decreases FIELD_COUNT - i
  {
    if i < FIELD_COUNT && i < |tokens| {
      ParseFromMissing(tokens, i + 1, p, f);
      if !Parses(tokens, i, p) {
        assert ParseFrom(tokens, i, p) == Failure(Unparsable(i));
        assert !(i <= f && f == |tokens| && ParsesBetween(tokens, i, f, p)) by {
          if i <= f && f == |tokens| { assert i < f; }
        }
      } else {
        assert ParseFrom(tokens, i + 1, p).Failure? ==> ParseFrom(tokens, i, p) == ParseFrom(tokens, i + 1, p);
        if i <= f && f == |tokens| && ParsesBetween(tokens, i, f, p) {
          assert ParsesBetween(tokens, i + 1, f, p);
        }
        if ParseFrom(tokens, i, p) == Failure(Missing(f)) {
          assert ParsesBetween(tokens, i, f, p) by {
            forall j | i <= j < f
              ensures Parses(tokens, j, p)
            {
              if j > i { assert i + 1 <= j < f; }
            }
          }
        }
      }
    }
  }

  /** Decoding from item `i` on reports item `f` unparsable exactly when `f` has
      a token that does not parse and the items from `i` up to `f` all parse. */
  lemma {:induction false} ParseFromUnparsable(tokens: seq<string>, i: nat, p: NumberParsers, f: Field)
    requires i <= FIELD_COUNT
    ensures ParseFrom(tokens, i, p) == Failure(Unparsable(f)) <==>
              i <= f < |tokens| && ParsesBetween(tokens, i, f, p) && !Parses(tokens, f, p)
    decreases FIELD_COUNT - i
  {
    if i < FIELD_COUNT && i < |tokens| {
      ParseFromUnparsable(tokens, i + 1, p, f);
      if i < f < |tokens| && ParsesBetween(tokens, i, f, p) && !Parses(tokens, f, p) {
        assert Parses(tokens, i, p);
        assert ParsesBetween(tokens, i + 1, f, p);
      }
      if ParseFrom(tokens, i, p) == Failure(Unparsable(f)) && f != i {
        assert ParseItem(i, tokens[i], p).Success?;
        assert ParsesBetween(tokens, i, f, p) by {
          forall j | i <= j < f
            ensures Parses(tokens, j, p)
          {
            if j > i { assert i + 1 <= j < f; }
          }
        }
      }
    }
  }

  /** Decoding never looks past the eighteenth token. */
  lemma {:induction false} ParseFromIgnoresExtra(tokens: seq<string>, extra: seq<string>, i: nat, p: NumberParsers)
    requires i <= FIELD_COUNT <= |tokens|
    ensures ParseFrom(tokens + extra, i, p) == ParseFrom(tokens, i, p)
    decreases FIELD_COUNT - i
  {
    if i < FIELD_COUNT {
      assert (tokens + extra)[i] == tokens[i];
      ParseFromIgnoresExtra(tokens, extra, i + 1, p);
    }
  }

  /** A configuration is determined by the values of its eighteen items. */
  lemma FieldValuesDetermine(c: Configuration, d: Configuration)
    requires forall f: Field :: FieldValue(c, f) == FieldValue(d, f)
    ensures c == d
  {
    assert FieldValue(c, 0) == FieldValue(d, 0) && FieldValue(c, 1) == FieldValue(d, 1);
    assert FieldValue(c, 2) == FieldValue(d, 2) && FieldValue(c, 3) == FieldValue(d, 3);
    assert FieldValue(c, 4) == FieldValue(d, 4) && FieldValue(c, 5) == FieldValue(d, 5);
    assert FieldValue(c, 6) == FieldValue(d, 6) && FieldValue(c, 7) == FieldValue(d, 7);
    assert FieldValue(c, 8) == FieldValue(d, 8) && FieldValue(c, 9) == FieldValue(d, 9);
    assert FieldValue(c, 10) == FieldValue(d, 10) && FieldValue(c, 11) == FieldValue(d, 11);
    assert FieldValue(c, 12) == FieldValue(d, 12) && FieldValue(c, 13) == FieldValue(d, 13);
    assert FieldValue(c, 14) == FieldValue(d, 14) && FieldValue(c, 15) == FieldValue(d, 15);
    assert FieldValue(c, 16) == FieldValue(d, 16) && FieldValue(c, 17) == FieldValue(d, 17);
  }

  /** Every item of the stream's first eighteen decodes to the matching field of `c`. */
  predicate Encodes(tokens: seq<string>, p: NumberParsers, c: Configuration)
  {
    |tokens| >= FIELD_COUNT && forall f: Field :: ParsedAs(f, tokens[f], p, FieldValue(c, f))
  }

  /** A configuration that loads has its items' tokens at the head of the stream. */
  lemma LoadedEncodes(tokens: seq<string>, p: NumberParsers, c: Configuration)
    requires LoadTokens(tokens, p) == Success(c)
    ensures Encodes(tokens, p, c)
  {
    var r := ParseFrom(tokens, 0, p);
    ParseFromKinds(tokens, p);
    var vs := r.value;
    assert c == Assemble(vs);
    ParseFromItem(tokens, 0, p, PLOT);
    forall f: Field
      ensures ParsedAs(f, tokens[f], p, FieldValue(c, f))
    {
      ParseFromItem(tokens, 0, p, f);
    }
  }

  /** A stream that encodes a configuration passing the checks loads it. */
  lemma EncodedLoads(tokens: seq<string>, p: NumberParsers, c: Configuration)
    requires Encodes(tokens, p, c) && c.numEvents > 0 && !c.plot && !c.impr
    ensures LoadTokens(tokens, p) == Success(c)
  {
    var r := ParseFrom(tokens, 0, p);
    ParseFromSucceeds(tokens, 0, p);
    assert r.Success?;
    ParseFromKinds(tokens, p);
    var vs := r.value;
    forall f: Field
      ensures FieldValue(Assemble(vs), f) == FieldValue(c, f)
    {
      ParseFromItem(tokens, 0, p, f);
      assert ParseItem(f, tokens[f], p) == Success(vs[f]);
    }
    FieldValuesDetermine(Assemble(vs), c);
    assert Validate(Assemble(vs)) == Success(c);
  }

  /** Loading yields `c` exactly when the first eighteen tokens decode to the
      fields of `c` and `c` passes the three checks. */
  lemma LoadSucceeds(tokens: seq<string>, p: NumberParsers, c: Configuration)
    ensures LoadTokens(tokens, p) == Success(c) <==>
              Encodes(tokens, p, c) && c.numEvents > 0 && !c.plot && !c.impr
  {
    if LoadTokens(tokens, p) == Success(c) {
      LoadedEncodes(tokens, p, c);
    }
    if Encodes(tokens, p, c) && c.numEvents > 0 && !c.plot && !c.impr {
      EncodedLoads(tokens, p, c);
    }
  }

  /** Loading reports item `f` missing exactly when the stream holds only `f`
      tokens and all of them parse. */
  lemma LoadMissing(tokens: seq<string>, p: NumberParsers, f: Field)
    ensures LoadTokens(tokens, p) == Failure(Missing(f)) <==>
              f == |tokens| && ParsesBetween(tokens, 0, f, p)
  {
    ParseFromMissing(tokens, 0, p, f);
  }

  /** Loading reports item `f` unparsable exactly when its token is the first one
      that does not parse. */
  lemma LoadUnparsable(tokens: seq<string>, p: NumberParsers, f: Field)
    ensures LoadTokens(tokens, p) == Failure(Unparsable(f)) <==>
              f < |tokens| && ParsesBetween(tokens, 0, f, p) && !Parses(tokens, f, p)
  {
    ParseFromUnparsable(tokens, 0, p, f);
  }

  /** Once every item parses, the outcome is decided by the event count and
      the two flags alone, checked in that order. */
  lemma ParsedChecks(tokens: seq<string>, p: NumberParsers)
    requires ParseFrom(tokens, 0, p).Success?
    ensures FIELD_COUNT <= |tokens|
    ensures p.parseUSize(tokens[NUM_EVENTS]).Some? && ParseBool(tokens[PLOT]).Some? && ParseBool(tokens[IMPR]).Some?
    ensures LoadTokens(tokens, p) == Failure(NoEvents) <==> p.parseUSize(tokens[NUM_EVENTS]).value == 0
    ensures LoadTokens(tokens, p) == Failure(PlottingUnsupported) <==>
              p.parseUSize(tokens[NUM_EVENTS]).value != 0 && ParseBool(tokens[PLOT]).value
    ensures LoadTokens(tokens, p) == Failure(PrintingUnsupported) <==>
              p.parseUSize(tokens[NUM_EVENTS]).value != 0 && !ParseBool(tokens[PLOT]).value && ParseBool(tokens[IMPR]).value
  {
    var vs := ParseFrom(tokens, 0, p).value;
    ParseFromKinds(tokens, p);
    ParseFromItem(tokens, 0, p, NUM_EVENTS);
    ParseFromItem(tokens, 0, p, IMPR);
    ParseFromItem(tokens, 0, p, PLOT);
    var c := Assemble(vs);
    assert FieldValue(c, NUM_EVENTS) == vs[NUM_EVENTS];
    assert FieldValue(c, IMPR) == vs[IMPR];
    assert FieldValue(c, PLOT) == vs[PLOT];
  }

  /** Once all items parse, the checks run in order: zero events first, then
      plotting, then result printing, and the first one violated is reported.
      Zero events are reported exactly when the event count parses as zero. */
  lemma LoadNoEvents(tokens: seq<string>, p: NumberParsers)
    ensures LoadTokens(tokens, p) == Failure(NoEvents) <==>
              |tokens| >= FIELD_COUNT && ParsesBetween(tokens, 0, FIELD_COUNT, p) && p.parseUSize(tokens[NUM_EVENTS]) == Some(0)
  {
    ParseFromSucceeds(tokens, 0, p);
    if ParseFrom(tokens, 0, p).Success? {
      ParsedChecks(tokens, p);
    }
  }

  /** Plotting is reported exactly when the event count is nonzero and the
      plotting flag parses as true. */
  lemma LoadPlotting(tokens: seq<string>, p: NumberParsers)
    ensures LoadTokens(tokens, p) == Failure(PlottingUnsupported) <==>
              |tokens| >= FIELD_COUNT && ParsesBetween(tokens, 0, FIELD_COUNT, p) && p.parseUSize(tokens[NUM_EVENTS]) != Some(0)
              && ParseBool(tokens[PLOT]) == Some(true)
  {
    ParseFromSucceeds(tokens, 0, p);
    if ParseFrom(tokens, 0, p).Success? {
      ParsedChecks(tokens, p);
    }
  }

  /** Result printing is reported exactly when the event count is nonzero,
      plotting is off and the printing flag parses as true. */
  lemma LoadPrinting(tokens: seq<string>, p: NumberParsers)
    ensures LoadTokens(tokens, p) == Failure(PrintingUnsupported) <==>
              |tokens| >= FIELD_COUNT && ParsesBetween(tokens, 0, FIELD_COUNT, p) && p.parseUSize(tokens[NUM_EVENTS]) != Some(0)
              && ParseBool(tokens[PLOT]) == Some(false) && ParseBool(tokens[IMPR]) == Some(true)
  {
    ParseFromSucceeds(tokens, 0, p);
    if ParseFrom(tokens, 0, p).Success? {
      ParsedChecks(tokens, p);
    }
  }

  /** Tokens after the eighteenth do not change the outcome. */
  lemma LoadIgnoresExtra(tokens: seq<string>, extra: seq<string>, p: NumberParsers)
    requires |tokens| >= FIELD_COUNT
    ensures LoadTokens(tokens + extra, p) == LoadTokens(tokens, p)
  {
    ParseFromIgnoresExtra(tokens, extra, 0, p);
  }

  /** The Fortran spellings are accepted in any letter case. */
  lemma ParseBoolFortranTrue()
    ensures ParseBool(".TRUE.") == Some(true)
  {
    assert ToLower(".TRUE.") == ".true.";
  }

  lemma ParseBoolFortranFalse()
    ensures ParseBool(".False.") == Some(false)
  {
    assert ToLower(".False.") == ".false.";
  }

  /** The standard spelling is accepted only in lower case, and nothing else is. */
  lemma ParseBoolStandard()
    ensures ParseBool("true") == Some(true)
    ensures ParseBool("TRUE") == None
    ensures ParseBool("yes") == None
  {
    assert ToLower("TRUE") == "true";
  }
}
