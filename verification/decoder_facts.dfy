/**
  What `Tournament::decode` promises, proved about the model: which inputs
  decode, which key an error names, when it panics, what each field of a
  decoded record holds, and which parts of the input it never looks at.
 */
module DecoderFacts {
  import opened Wrappers
  import opened Json
  import opened Collaborators
  import opened Accessors
  import opened Enums
  import opened FieldTable
  import opened Decoder

  /** `m1` and `m2` hold the same entries for every key the fields name. */
  predicate AgreeOn(m1: map<string, Json>, m2: map<string, Json>, fields: seq<Field>) {
    forall j :: 0 <= j < |fields| ==>
      (fields[j].key() in m1 <==> fields[j].key() in m2) &&
      (fields[j].key() in m1 ==> m1[fields[j].key()] == m2[fields[j].key()])
  }

  /** Extraction reads only the keys it takes: maps that agree on them extract alike. */
  lemma {:induction false} ExtractAllLocal(env: Env, m1: map<string, Json>, m2: map<string, Json>, fields: seq<Field>)
    requires AgreeOn(m1, m2, fields)
    ensures ExtractAll(env, m1, fields) == ExtractAll(env, m2, fields)
    decreases |fields|
  {
    if |fields| > 0 {
      var k := fields[0].key();
      assert k in m1 <==> k in m2;
      if k in m1 {
        var rest1 := Remove(m1, k).rest;
        var rest2 := Remove(m2, k).rest;
        forall j | 0 <= j < |fields[1..]|
          ensures fields[1..][j].key() in rest1 <==> fields[1..][j].key() in rest2
          ensures fields[1..][j].key() in rest1 ==> rest1[fields[1..][j].key()] == rest2[fields[1..][j].key()]
        {
          var kj := fields[1..][j].key();
          assert fields[1..][j] == fields[j + 1];
          if kj != k {
            RemoveLeavesOthers(m1, k, kj);
            RemoveLeavesOthers(m2, k, kj);
          }
        }
        ExtractAllLocal(env, rest1, rest2, fields[1..]);
      }
    }
  }

  /** Removing a key no later field takes changes nothing about the later fields. */
  lemma RemoveKeepsLater(m: map<string, Json>, fields: seq<Field>)
    requires |fields| > 0 && fields[0].key() in m
    requires forall j :: 1 <= j < |fields| ==> fields[j].key() != fields[0].key()
    ensures AgreeOn(Remove(m, fields[0].key()).rest, m, fields[1..])
  {
    var k := fields[0].key();
    forall j | 0 <= j < |fields[1..]|
      ensures fields[1..][j].key() in Remove(m, k).rest <==> fields[1..][j].key() in m
      ensures fields[1..][j].key() in m ==> Remove(m, k).rest[fields[1..][j].key()] == m[fields[1..][j].key()]
    {
      assert fields[1..][j] == fields[j + 1];
      RemoveLeavesOthers(m, k, fields[j + 1].key());
    }
  }

  /**
    The threaded extraction agrees with `FirstStop`, which reads every key from
    the original map: all fields pass and the values are the coercions of the
    original entries; or the first failing field is absent and the error names
    it; or it is present and its coercion panics.
   */
  lemma {:induction false} ExtractAllSpec(env: Env, m: map<string, Json>, fields: seq<Field>)
    requires DistinctKeys(fields)
    ensures ExtractAll(env, m, fields).Ok? <==> FirstStop(env, m, fields) == |fields|
    ensures ExtractAll(env, m, fields).Ok? ==>
              forall j :: 0 <= j < |fields| ==>
                fields[j].key() in m &&
                Coerce(env, fields[j].coercion, m[fields[j].key()]) == Ok(ExtractAll(env, m, fields).value[j])
    ensures FirstStop(env, m, fields) < |fields| && fields[FirstStop(env, m, fields)].key() !in m ==>
              ExtractAll(env, m, fields) == Err(Decode(UnexpectedAbsentKey, Str(fields[FirstStop(env, m, fields)].key())))
    ensures FirstStop(env, m, fields) < |fields| && fields[FirstStop(env, m, fields)].key() in m ==>
              ExtractAll(env, m, fields) == Panic
    decreases |fields|
  {
    if |fields| > 0 && Passes(env, m, fields[0]) {
      var k := fields[0].key();
      var rest := fields[1..];
      assert DistinctKeys(rest) by {
        forall i, j | 0 <= i < j < |rest| ensures rest[i].key() != rest[j].key() {
          assert rest[i] == fields[i + 1] && rest[j] == fields[j + 1];
        }
      }
      RemoveKeepsLater(m, fields);
      ExtractAllLocal(env, Remove(m, k).rest, m, rest);
      ExtractAllSpec(env, m, rest);
      var x := Coerce(env, fields[0].coercion, m[k]).value;
      var r := ExtractAll(env, m, fields);
      var tail := ExtractAll(env, m, rest);
      if tail.Ok? {
        assert r == Ok([x] + tail.value);
        forall j | 0 <= j < |fields|
          ensures fields[j].key() in m && Coerce(env, fields[j].coercion, m[fields[j].key()]) == Ok(r.value[j])
        {
          if j > 0 {
            assert fields[j] == rest[j - 1];
          }
        }
      }
    }
  }

  /** A key no field names never changes the extraction, whatever its value, and neither does dropping it. */
  lemma ExtraKeysIgnored(env: Env, m: map<string, Json>, fields: seq<Field>, k: string, w: Json)
    requires forall j :: 0 <= j < |fields| ==> fields[j].key() != k
    ensures ExtractAll(env, m[k := w], fields) == ExtractAll(env, m, fields)
    ensures ExtractAll(env, m - {k}, fields) == ExtractAll(env, m, fields)
  {
    ExtractAllLocal(env, m[k := w], m, fields);
    ExtractAllLocal(env, m - {k}, m, fields);
  }

  /**
    Replacing the value of a field that cannot panic, by anything at all, keeps
    the extraction successful and changes that field's value alone, to the
    coercion of the new value.
   */
  lemma ReplaceTolerant(env: Env, m: map<string, Json>, fields: seq<Field>, j: nat, w: Json)
    requires DistinctKeys(fields)
    requires j < |fields| && !Mandatory(fields[j].coercion)
    requires ExtractAll(env, m, fields).Ok?
    ensures ExtractAll(env, m[fields[j].key() := w], fields) ==
              Ok(ExtractAll(env, m, fields).value[j := Coerce(env, fields[j].coercion, w).value])
  {
    var m' := m[fields[j].key() := w];
    ReplaceStillPasses(env, m, fields, j, w);
    ExtractAllSpec(env, m, fields);
    ExtractAllSpec(env, m', fields);
    var vals := ExtractAll(env, m, fields).value;
    var r' := ExtractAll(env, m', fields).value;
    forall i | 0 <= i < |fields|
      ensures r'[i] == vals[j := Coerce(env, fields[j].coercion, w).value][i]
    {
      assert Coerce(env, fields[i].coercion, m'[fields[i].key()]) == Ok(r'[i]);
      if i != j {
        assert fields[i].key() != fields[j].key();
        assert Coerce(env, fields[i].coercion, m[fields[i].key()]) == Ok(vals[i]);
      }
    }
    assert r' == vals[j := Coerce(env, fields[j].coercion, w).value];
  }

  /** The first half of `ReplaceTolerant`: every field still passes after the replacement. */
  lemma ReplaceStillPasses(env: Env, m: map<string, Json>, fields: seq<Field>, j: nat, w: Json)
    requires DistinctKeys(fields)
    requires j < |fields| && !Mandatory(fields[j].coercion)
    requires ExtractAll(env, m, fields).Ok?
    ensures FirstStop(env, m[fields[j].key() := w], fields) == |fields|
  {
    var m' := m[fields[j].key() := w];
    ExtractAllSpec(env, m, fields);
    forall i | 0 <= i < |fields|
      ensures Passes(env, m', fields[i])
    {
      if i != j {
        assert fields[i].key() != fields[j].key();
        assert Passes(env, m, fields[i]);
      }
    }
    FirstStopAllPass(env, m', fields);
  }

  /** When every field passes, nothing stops the run. */
  lemma {:induction false} FirstStopAllPass(env: Env, m: map<string, Json>, fields: seq<Field>)
    requires forall i :: 0 <= i < |fields| ==> Passes(env, m, fields[i])
    ensures FirstStop(env, m, fields) == |fields|
    decreases |fields|
  {
    if |fields| > 0 {
      assert forall i :: 0 <= i < |fields[1..]| ==> fields[1..][i] == fields[i + 1];
      FirstStopAllPass(env, m, fields[1..]);
    }
  }

  /** A field whose coercion panics stops the extraction at or before it. */
  lemma PanicStops(env: Env, m: map<string, Json>, fields: seq<Field>, j: nat)
    requires j < |fields| && fields[j].key() in m
    requires Coerce(env, fields[j].coercion, m[fields[j].key()]).Panic?
    ensures FirstStop(env, m, fields) <= j
  {
  }

  /**
    With every key present extraction never errs, and it succeeds exactly when
    neither of the two fields that can panic (at `a` and `b`) does.
   */
  lemma ExtractAllPresent(env: Env, m: map<string, Json>, fields: seq<Field>, a: nat, b: nat)
    requires DistinctKeys(fields)
    requires forall j :: 0 <= j < |fields| ==> fields[j].key() in m
    requires a < |fields| && b < |fields|
    requires forall j :: 0 <= j < |fields| ==> (Mandatory(fields[j].coercion) <==> j == a || j == b)
    ensures !ExtractAll(env, m, fields).Err?
    ensures ExtractAll(env, m, fields).Ok? <==>
              Coerce(env, fields[a].coercion, m[fields[a].key()]).Ok? &&
              Coerce(env, fields[b].coercion, m[fields[b].key()]).Ok?
  {
    ExtractAllSpec(env, m, fields);
    var i := FirstStop(env, m, fields);
    if i < |fields| {
      assert fields[i].key() in m;
      assert Coerce(env, fields[i].coercion, m[fields[i].key()]).Panic?;
    }
  }

  /**
    A present field whose coercion panics blocks extraction: the run panics,
    unless an earlier key is absent, in which case the error names that key.
   */
  lemma ExtractAllBlocked(env: Env, m: map<string, Json>, fields: seq<Field>, k: nat)
    requires DistinctKeys(fields)
    requires k < |fields| && fields[k].key() in m
    requires Coerce(env, fields[k].coercion, m[fields[k].key()]).Panic?
    ensures !ExtractAll(env, m, fields).Ok?
    ensures ExtractAll(env, m, fields).Err? ==>
              exists i :: 0 <= i < k && fields[i].key() !in m &&
                ExtractAll(env, m, fields) == Err(Decode(UnexpectedAbsentKey, Str(fields[i].key())))
  {
    ExtractAllSpec(env, m, fields);
    var i := FirstStop(env, m, fields);
    assert i <= k;
    if ExtractAll(env, m, fields).Err? {
      assert i < k && fields[i].key() !in m;
    }
  }

  /** A successful extraction holds the coercion of every key's value, read from the map it was given. */
  lemma ExtractedCoerced(env: Env, m: map<string, Json>)
    requires ExtractAll(env, m, Fields).Ok?
    ensures Coerced(env, m, ExtractAll(env, m, Fields).value)
  {
    FieldsDistinct();
    ExtractAllSpec(env, m, Fields);
    var vals := ExtractAll(env, m, Fields).value;
    forall j | 0 <= j < |Fields| ensures CoercedAt(env, m, vals, j) {
    }
  }

  /** A successful decode came through the envelope, and its record is built from the coerced values. */
  lemma DecodeOk(env: Env, v: Json)
    requires DecodeTournament(env, v).Ok?
    ensures Enveloped(v) && ExtractAll(env, Inner(v), Fields).Ok?
    ensures DecodeTournament(env, v).value == Assemble(ExtractAll(env, Inner(v), Fields).value)
    ensures Coerced(env, Inner(v), ExtractAll(env, Inner(v), Fields).value)
  {
    ExtractedCoerced(env, Inner(v));
  }

  /**
    The outcome of decoding a well-formed envelope: it succeeds exactly when
    every key is present and neither stamp panics; otherwise the first key, in
    extraction order, that is absent or panics decides it: absent gives the
    error naming that key, present gives a panic.
   */
  lemma DecodeOutcome(env: Env, v: Json)
    requires Enveloped(v)
    ensures DecodeTournament(env, v).Ok? <==> FirstStop(env, Inner(v), Fields) == |Fields|
    ensures FirstStop(env, Inner(v), Fields) < |Fields| && Fields[FirstStop(env, Inner(v), Fields)].key() !in Inner(v) ==>
              DecodeTournament(env, v) == Err(Decode(UnexpectedAbsentKey, Str(Fields[FirstStop(env, Inner(v), Fields)].key())))
    ensures FirstStop(env, Inner(v), Fields) < |Fields| && Fields[FirstStop(env, Inner(v), Fields)].key() in Inner(v) ==>
              DecodeTournament(env, v) == Panic
  {
    FieldsDistinct();
    ExtractAllSpec(env, Inner(v), Fields);
  }

  /** The table instance of `ExtractAllPresent`: only `created_at` and `updated_at` decide. */
  lemma ExtractPresent(env: Env, m: map<string, Json>)
    requires forall j :: 0 <= j < |Fields| ==> Fields[j].key() in m
    ensures !ExtractAll(env, m, Fields).Err?
    ensures Spelling(CreatedAt) in m && Spelling(UpdatedAt) in m
    ensures ExtractAll(env, m, Fields).Ok? <==>
              CreatedAtOf(env, m[Spelling(CreatedAt)]).Ok? && UpdatedAtOf(env, m[Spelling(UpdatedAt)]).Ok?
  {
    FieldsDistinct();
    MandatoryFields();
    StampPositions();
    assert Fields[4].key() in m && Fields[39].key() in m;
    ExtractAllPresent(env, m, Fields, 4, 39);
  }

  /**
    With every key present the decoder never returns an error: it succeeds
    when both `created_at` and `updated_at` coerce, and panics otherwise.
   */
  lemma DecodeAllKeysPresent(env: Env, v: Json)
    requires Enveloped(v)
    requires forall j :: 0 <= j < |Fields| ==> Fields[j].key() in Inner(v)
    ensures !DecodeTournament(env, v).Err?
    ensures Spelling(CreatedAt) in Inner(v) && Spelling(UpdatedAt) in Inner(v)
    ensures DecodeTournament(env, v).Ok? <==>
              CreatedAtOf(env, Inner(v)[Spelling(CreatedAt)]).Ok? && UpdatedAtOf(env, Inner(v)[Spelling(UpdatedAt)]).Ok?
  {
    ExtractPresent(env, Inner(v));
  }

  /**
    A malformed `updated_at` never decodes: the decoder panics, unless a key
    taken before `updated_at` is absent, in which case that key is the error.
   */
  lemma MalformedUpdatedAt(env: Env, v: Json)
    requires Enveloped(v) && "updated_at" in Inner(v)
    requires !UpdatedAtOf(env, Inner(v)["updated_at"]).Ok?
    ensures !DecodeTournament(env, v).Ok?
    ensures DecodeTournament(env, v).Err? ==>
              exists i :: 0 <= i < 39 && Fields[i].key() !in Inner(v) &&
                DecodeTournament(env, v) == Err(Decode(UnexpectedAbsentKey, Str(Fields[i].key())))
  {
    FieldsDistinct();
    StampPositions();
    ExtractAllBlocked(env, Inner(v), Fields, 39);
  }

  /**
    A malformed `created_at` never decodes when the date parser rejects "":
    the decoder panics, unless a key taken before it is absent.
   */
  lemma MalformedCreatedAt(env: Env, v: Json)
    requires Enveloped(v) && "created_at" in Inner(v)
    requires env.parseRfc3339("") == None
    requires !(Inner(v)["created_at"].Str? && env.parseRfc3339(Inner(v)["created_at"].s).Some?)
    ensures !DecodeTournament(env, v).Ok?
    ensures DecodeTournament(env, v).Err? ==>
              exists i :: 0 <= i < 4 && Fields[i].key() !in Inner(v) &&
                DecodeTournament(env, v) == Err(Decode(UnexpectedAbsentKey, Str(Fields[i].key())))
  {
    FieldsDistinct();
    StampPositions();
    ExtractAllBlocked(env, Inner(v), Fields, 4);
  }

  /** `started_at` is taken first, so without it the decoder fails naming it, whatever else the record holds. */
  lemma MissingStartedAt(env: Env, v: Json)
    requires Enveloped(v) && "started_at" !in Inner(v)
    ensures DecodeTournament(env, v) == Err(Decode(UnexpectedAbsentKey, Str("started_at")))
  {
    DecodeOutcome(env, v);
    assert Fields[0].key() == "started_at";
  }

  /** The envelope's other keys are never read: setting or dropping one leaves the outcome as it was. */
  lemma OuterKeysIgnored(env: Env, v: Json, k: string, w: Json)
    requires v.Obj? && k != "tournament"
    ensures DecodeTournament(env, Obj(v.fields[k := w])) == DecodeTournament(env, v)
    ensures DecodeTournament(env, Obj(v.fields - {k})) == DecodeTournament(env, v)
  {
  }

  /** Keys of the record object that no field names are never read. */
  lemma InnerKeysIgnored(env: Env, v: Json, k: string, w: Json)
    requires Enveloped(v)
    requires forall j :: 0 <= j < |Fields| ==> Fields[j].key() != k
    ensures DecodeTournament(env, Obj(v.fields["tournament" := Obj(Inner(v)[k := w])])) == DecodeTournament(env, v)
    ensures DecodeTournament(env, Obj(v.fields["tournament" := Obj(Inner(v) - {k})])) == DecodeTournament(env, v)
  {
    ExtraKeysIgnored(env, Inner(v), Fields, k, w);
  }

  /**
    A decodable record stays decodable whatever value one of its non-stamp
    fields is given, and the new record is built from the same values except
    that field's, which becomes the coercion of the new value.
   */
  lemma DecodeTolerant(env: Env, v: Json, j: nat, w: Json)
    requires DecodeTournament(env, v).Ok?
    requires j < |Fields| && !Mandatory(Fields[j].coercion)
    ensures Enveloped(v) && ExtractAll(env, Inner(v), Fields).Ok?
    ensures DecodeTournament(env, Obj(v.fields["tournament" := Obj(Inner(v)[Fields[j].key() := w])])) ==
              Ok(Assemble(ExtractAll(env, Inner(v), Fields).value[j := Coerce(env, Fields[j].coercion, w).value]))
  {
    DecodeOk(env, v);
    FieldsDistinct();
    ReplaceTolerant(env, Inner(v), Fields, j, w);
  }

  /** `vals` holds, for every row of the table, the coercion of its key's value in `m`. */
  predicate Coerced(env: Env, m: map<string, Json>, vals: seq<FieldValue>) {
    |vals| == |Fields| && forall j :: 0 <= j < |Fields| ==> CoercedAt(env, m, vals, j)
  }

  predicate CoercedAt(env: Env, m: map<string, Json>, vals: seq<FieldValue>, j: nat)
    requires j < |Fields| == |vals|
  {
    Fields[j].key() in m && Coerce(env, Fields[j].coercion, m[Fields[j].key()]) == Ok(vals[j])
  }

  /*
    The contents of a decoded record, seven fields at a time in extraction
    order: each field holds the coercion of the value of its key (spelled as
    `Spelling` gives) in the record object. `DecodedFieldsK` states it of
    `DecodeTournament`; the `AssembledK` helpers state it, a few fields at a
    time, of `Assemble` over values coerced from a map. The split keeps each
    proof within the verifier's budget: projecting a field out of `Assemble`
    costs about as much as the rest of the proof, so one lemma over all 51
    fields would not verify.
   */
  lemma Assembled0(env: Env, m: map<string, Json>, vals: seq<FieldValue>)
    requires Coerced(env, m, vals)
    ensures var t := Assemble(vals);
              Spelling(StartedAt) in m && t.startedAt == StartedAtOf(env, m[Spelling(StartedAt)])
    ensures var t := Assemble(vals);
              Spelling(AcceptAttachments) in m && t.acceptAttachments == FlagOf(m[Spelling(AcceptAttachments)])
    ensures var t := Assemble(vals);
              Spelling(AllowParticipantMatchReporting) in m && t.allowParticipantMatchReporting == FlagOf(m[Spelling(AllowParticipantMatchReporting)])
    ensures var t := Assemble(vals);
              Spelling(AnonymousVoting) in m && t.anonymousVoting == FlagOf(m[Spelling(AnonymousVoting)])
  {
    FieldEntries0();
    assert CoercedAt(env, m, vals, 0);
    assert CoercedAt(env, m, vals, 1);
    assert CoercedAt(env, m, vals, 2);
    assert CoercedAt(env, m, vals, 3);
  }

  lemma Assembled4(env: Env, m: map<string, Json>, vals: seq<FieldValue>)
    requires Coerced(env, m, vals)
    ensures var t := Assemble(vals);
              Spelling(CreatedAt) in m && CreatedAtOf(env, m[Spelling(CreatedAt)]) == Ok(t.createdAt)
    ensures var t := Assemble(vals);
              Spelling(CreatedByApi) in m && t.createdByApi == FlagOf(m[Spelling(CreatedByApi)])
    ensures var t := Assemble(vals);
              Spelling(CreditCapped) in m && t.creditCapped == FlagOf(m[Spelling(CreditCapped)])
  {
    FieldEntries0();
    assert CoercedAt(env, m, vals, 4);
    assert CoercedAt(env, m, vals, 5);
    assert CoercedAt(env, m, vals, 6);
  }

  lemma DecodedFields0(env: Env, v: Json)
    requires DecodeTournament(env, v).Ok?
    ensures Enveloped(v)
    ensures var m := Inner(v); var t := DecodeTournament(env, v).value;
              Spelling(StartedAt) in m && t.startedAt == StartedAtOf(env, m[Spelling(StartedAt)])
    ensures var m := Inner(v); var t := DecodeTournament(env, v).value;
              Spelling(AcceptAttachments) in m && t.acceptAttachments == FlagOf(m[Spelling(AcceptAttachments)])
    ensures var m := Inner(v); var t := DecodeTournament(env, v).value;
              Spelling(AllowParticipantMatchReporting) in m && t.allowParticipantMatchReporting == FlagOf(m[Spelling(AllowParticipantMatchReporting)])
    ensures var m := Inner(v); var t := DecodeTournament(env, v).value;
              Spelling(AnonymousVoting) in m && t.anonymousVoting == FlagOf(m[Spelling(AnonymousVoting)])
    ensures var m := Inner(v); var t := DecodeTournament(env, v).value;
              Spelling(CreatedAt) in m && CreatedAtOf(env, m[Spelling(CreatedAt)]) == Ok(t.createdAt)
    ensures var m := Inner(v); var t := DecodeTournament(env, v).value;
              Spelling(CreatedByApi) in m && t.createdByApi == FlagOf(m[Spelling(CreatedByApi)])
    ensures var m := Inner(v); var t := DecodeTournament(env, v).value;
              Spelling(CreditCapped) in m && t.creditCapped == FlagOf(m[Spelling(CreditCapped)])
  {
    DecodeOk(env, v);
    Assembled0(env, Inner(v), ExtractAll(env, Inner(v), Fields).value);
    Assembled4(env, Inner(v), ExtractAll(env, Inner(v), Fields).value);
  }

  lemma Assembled7(env: Env, m: map<string, Json>, vals: seq<FieldValue>)
    requires Coerced(env, m, vals)
    ensures var t := Assemble(vals);
              Spelling(Description) in m && t.description == TextOf(m[Spelling(Description)])
    ensures var t := Assemble(vals);
              Spelling(GameId) in m && t.gameId == CountOf(env, m[Spelling(GameId)])
    ensures var t := Assemble(vals);
              Spelling(IdKey) in m && t.id == CountOf(env, m[Spelling(IdKey)])
    ensures var t := Assemble(vals);
              Spelling(Name) in m && t.name == TextOf(m[Spelling(Name)])
  {
    FieldEntries7();
    assert CoercedAt(env, m, vals, 7);
    assert CoercedAt(env, m, vals, 8);
    assert CoercedAt(env, m, vals, 9);
    assert CoercedAt(env, m, vals, 10);
  }

  lemma Assembled11(env: Env, m: map<string, Json>, vals: seq<FieldValue>)
    requires Coerced(env, m, vals)
    ensures var t := Assemble(vals);
              Spelling(GroupStagesEnabled) in m && t.groupStagesEnabled == FlagOf(m[Spelling(GroupStagesEnabled)])
    ensures var t := Assemble(vals);
              Spelling(HideForum) in m && t.hideForum == FlagOf(m[Spelling(HideForum)])
    ensures var t := Assemble(vals);
              Spelling(HideSeeds) in m && t.hideSeeds == FlagOf(m[Spelling(HideSeeds)])
  {
    FieldEntries7();
    assert CoercedAt(env, m, vals, 11);
    assert CoercedAt(env, m, vals, 12);
    assert CoercedAt(env, m, vals, 13);
  }

  lemma DecodedFields7(env: Env, v: Json)
    requires DecodeTournament(env, v).Ok?
    ensures Enveloped(v)
    ensures var m := Inner(v); var t := DecodeTournament(env, v).value;
              Spelling(Description) in m && t.description == TextOf(m[Spelling(Description)])
    ensures var m := Inner(v); var t := DecodeTournament(env, v).value;
              Spelling(GameId) in m && t.gameId == CountOf(env, m[Spelling(GameId)])
    ensures var m := Inner(v); var t := DecodeTournament(env, v).value;
              Spelling(IdKey) in m && t.id == CountOf(env, m[Spelling(IdKey)])
    ensures var m := Inner(v); var t := DecodeTournament(env, v).value;
              Spelling(Name) in m && t.name == TextOf(m[Spelling(Name)])
    ensures var m := Inner(v); var t := DecodeTournament(env, v).value;
              Spelling(GroupStagesEnabled) in m && t.groupStagesEnabled == FlagOf(m[Spelling(GroupStagesEnabled)])
    ensures var m := Inner(v); var t := DecodeTournament(env, v).value;
              Spelling(HideForum) in m && t.hideForum == FlagOf(m[Spelling(HideForum)])
    ensures var m := Inner(v); var t := DecodeTournament(env, v).value;
              Spelling(HideSeeds) in m && t.hideSeeds == FlagOf(m[Spelling(HideSeeds)])
  {
    DecodeOk(env, v);
    Assembled7(env, Inner(v), ExtractAll(env, Inner(v), Fields).value);
    Assembled11(env, Inner(v), ExtractAll(env, Inner(v), Fields).value);
  }

  lemma Assembled14(env: Env, m: map<string, Json>, vals: seq<FieldValue>)
    requires Coerced(env, m, vals)
    ensures var t := Assemble(vals);
              Spelling(HoldThirdPlaceMatch) in m && t.holdThirdPlaceMatch == FlagOf(m[Spelling(HoldThirdPlaceMatch)])
    ensures var t := Assemble(vals);
              Spelling(MaxPredictionsPerUser) in m && t.maxPredictionsPerUser == CountOf(env, m[Spelling(MaxPredictionsPerUser)])
    ensures var t := Assemble(vals);
              Spelling(NotifyUsersWhenMatchesOpen) in m && t.notifyUsersWhenMatchesOpen == FlagOf(m[Spelling(NotifyUsersWhenMatchesOpen)])
    ensures var t := Assemble(vals);
              Spelling(NotifyUsersWhenTheTournamentEnds) in m && t.notifyUsersWhenTheTournamentEnds == FlagOf(m[Spelling(NotifyUsersWhenTheTournamentEnds)])
  {
    FieldEntries14();
    assert CoercedAt(env, m, vals, 14);
    assert CoercedAt(env, m, vals, 15);
    assert CoercedAt(env, m, vals, 16);
    assert CoercedAt(env, m, vals, 17);
  }

  lemma Assembled18(env: Env, m: map<string, Json>, vals: seq<FieldValue>)
    requires Coerced(env, m, vals)
    ensures var t := Assemble(vals);
              Spelling(OpenSignup) in m && t.openSignup == FlagOf(m[Spelling(OpenSignup)])
    ensures var t := Assemble(vals);
              Spelling(ParticipantsCount) in m && t.participantsCount == CountOf(env, m[Spelling(ParticipantsCount)])
    ensures var t := Assemble(vals);
              Spelling(PredictionMethod) in m && t.predictionMethod == CountOf(env, m[Spelling(PredictionMethod)])
  {
    FieldEntries14();
    assert CoercedAt(env, m, vals, 18);
    assert CoercedAt(env, m, vals, 19);
    assert CoercedAt(env, m, vals, 20);
  }

  lemma DecodedFields14(env: Env, v: Json)
    requires DecodeTournament(env, v).Ok?
    ensures Enveloped(v)
    ensures var m := Inner(v); var t := DecodeTournament(env, v).value;
              Spelling(HoldThirdPlaceMatch) in m && t.holdThirdPlaceMatch == FlagOf(m[Spelling(HoldThirdPlaceMatch)])
    ensures var m := Inner(v); var t := DecodeTournament(env, v).value;
              Spelling(MaxPredictionsPerUser) in m && t.maxPredictionsPerUser == CountOf(env, m[Spelling(MaxPredictionsPerUser)])
    ensures var m := Inner(v); var t := DecodeTournament(env, v).value;
              Spelling(NotifyUsersWhenMatchesOpen) in m && t.notifyUsersWhenMatchesOpen == FlagOf(m[Spelling(NotifyUsersWhenMatchesOpen)])
    ensures var m := Inner(v); var t := DecodeTournament(env, v).value;
              Spelling(NotifyUsersWhenTheTournamentEnds) in m && t.notifyUsersWhenTheTournamentEnds == FlagOf(m[Spelling(NotifyUsersWhenTheTournamentEnds)])
    ensures var m := Inner(v); var t := DecodeTournament(env, v).value;
              Spelling(OpenSignup) in m && t.openSignup == FlagOf(m[Spelling(OpenSignup)])
    ensures var m := Inner(v); var t := DecodeTournament(env, v).value;
              Spelling(ParticipantsCount) in m && t.participantsCount == CountOf(env, m[Spelling(ParticipantsCount)])
    ensures var m := Inner(v); var t := DecodeTournament(env, v).value;
              Spelling(PredictionMethod) in m && t.predictionMethod == CountOf(env, m[Spelling(PredictionMethod)])
  {
    DecodeOk(env, v);
    Assembled14(env, Inner(v), ExtractAll(env, Inner(v), Fields).value);
    Assembled18(env, Inner(v), ExtractAll(env, Inner(v), Fields).value);
  }

  lemma Assembled21(env: Env, m: map<string, Json>, vals: seq<FieldValue>)
    requires Coerced(env, m, vals)
    ensures var t := Assemble(vals);
              Spelling(Private) in m && t.private == FlagOf(m[Spelling(Private)])
    ensures var t := Assemble(vals);
              Spelling(ProgressMeter) in m && t.progressMeter == CountOf(env, m[Spelling(ProgressMeter)])
    ensures var t := Assemble(vals);
              Spelling(PtsForBye) in m && t.ptsForBye == PointsOf(env, m[Spelling(PtsForBye)])
    ensures var t := Assemble(vals);
              Spelling(PtsForGameTie) in m && t.ptsForGameTie == PointsOf(env, m[Spelling(PtsForGameTie)])
  {
    FieldEntries21();
    assert CoercedAt(env, m, vals, 21);
    assert CoercedAt(env, m, vals, 22);
    assert CoercedAt(env, m, vals, 23);
    assert CoercedAt(env, m, vals, 24);
  }

  lemma Assembled25(env: Env, m: map<string, Json>, vals: seq<FieldValue>)
    requires Coerced(env, m, vals)
    ensures var t := Assemble(vals);
              Spelling(PtsForGameWin) in m && t.ptsForGameWin == PointsOf(env, m[Spelling(PtsForGameWin)])
    ensures var t := Assemble(vals);
              Spelling(PtsForMatchTie) in m && t.ptsForMatchTie == PointsOf(env, m[Spelling(PtsForMatchTie)])
    ensures var t := Assemble(vals);
              Spelling(PtsForMatchWin) in m && t.ptsForMatchWin == PointsOf(env, m[Spelling(PtsForMatchWin)])
  {
    FieldEntries21();
    assert CoercedAt(env, m, vals, 25);
    assert CoercedAt(env, m, vals, 26);
    assert CoercedAt(env, m, vals, 27);
  }

  lemma DecodedFields21(env: Env, v: Json)
    requires DecodeTournament(env, v).Ok?
    ensures Enveloped(v)
    ensures var m := Inner(v); var t := DecodeTournament(env, v).value;
              Spelling(Private) in m && t.private == FlagOf(m[Spelling(Private)])
    ensures var m := Inner(v); var t := DecodeTournament(env, v).value;
              Spelling(ProgressMeter) in m && t.progressMeter == CountOf(env, m[Spelling(ProgressMeter)])
    ensures var m := Inner(v); var t := DecodeTournament(env, v).value;
              Spelling(PtsForBye) in m && t.ptsForBye == PointsOf(env, m[Spelling(PtsForBye)])
    ensures var m := Inner(v); var t := DecodeTournament(env, v).value;
              Spelling(PtsForGameTie) in m && t.ptsForGameTie == PointsOf(env, m[Spelling(PtsForGameTie)])
    ensures var m := Inner(v); var t := DecodeTournament(env, v).value;
              Spelling(PtsForGameWin) in m && t.ptsForGameWin == PointsOf(env, m[Spelling(PtsForGameWin)])
    ensures var m := Inner(v); var t := DecodeTournament(env, v).value;
              Spelling(PtsForMatchTie) in m && t.ptsForMatchTie == PointsOf(env, m[Spelling(PtsForMatchTie)])
    ensures var m := Inner(v); var t := DecodeTournament(env, v).value;
              Spelling(PtsForMatchWin) in m && t.ptsForMatchWin == PointsOf(env, m[Spelling(PtsForMatchWin)])
  {
    DecodeOk(env, v);
    Assembled21(env, Inner(v), ExtractAll(env, Inner(v), Fields).value);
    Assembled25(env, Inner(v), ExtractAll(env, Inner(v), Fields).value);
  }

  lemma Assembled28(env: Env, m: map<string, Json>, vals: seq<FieldValue>)
    requires Coerced(env, m, vals)
    ensures var t := Assemble(vals);
              Spelling(QuickAdvance) in m && t.quickAdvance == FlagOf(m[Spelling(QuickAdvance)])
    ensures var t := Assemble(vals);
              Spelling(RequireScoreAgreement) in m && t.requireScoreAgreement == FlagOf(m[Spelling(RequireScoreAgreement)])
    ensures var t := Assemble(vals);
              Spelling(RrPtsForGameTie) in m && t.rrPtsForGameTie == PointsOf(env, m[Spelling(RrPtsForGameTie)])
    ensures var t := Assemble(vals);
              Spelling(RrPtsForGameWin) in m && t.rrPtsForGameWin == PointsOf(env, m[Spelling(RrPtsForGameWin)])
  {
    FieldEntries28();
    assert CoercedAt(env, m, vals, 28);
    assert CoercedAt(env, m, vals, 29);
    assert CoercedAt(env, m, vals, 30);
    assert CoercedAt(env, m, vals, 31);
  }

  lemma Assembled32(env: Env, m: map<string, Json>, vals: seq<FieldValue>)
    requires Coerced(env, m, vals)
    ensures var t := Assemble(vals);
              Spelling(RrPtsForMatchTie) in m && t.rrPtsForMatchTie == PointsOf(env, m[Spelling(RrPtsForMatchTie)])
    ensures var t := Assemble(vals);
              Spelling(RrPtsForMatchWin) in m && t.rrPtsForMatchWin == PointsOf(env, m[Spelling(RrPtsForMatchWin)])
    ensures var t := Assemble(vals);
              Spelling(SequentialPairings) in m && t.sequentialPairings == FlagOf(m[Spelling(SequentialPairings)])
  {
    FieldEntries28();
    assert CoercedAt(env, m, vals, 32);
    assert CoercedAt(env, m, vals, 33);
    assert CoercedAt(env, m, vals, 34);
  }

  lemma DecodedFields28(env: Env, v: Json)
    requires DecodeTournament(env, v).Ok?
    ensures Enveloped(v)
    ensures var m := Inner(v); var t := DecodeTournament(env, v).value;
              Spelling(QuickAdvance) in m && t.quickAdvance == FlagOf(m[Spelling(QuickAdvance)])
    ensures var m := Inner(v); var t := DecodeTournament(env, v).value;
              Spelling(RequireScoreAgreement) in m && t.requireScoreAgreement == FlagOf(m[Spelling(RequireScoreAgreement)])
    ensures var m := Inner(v); var t := DecodeTournament(env, v).value;
              Spelling(RrPtsForGameTie) in m && t.rrPtsForGameTie == PointsOf(env, m[Spelling(RrPtsForGameTie)])
    ensures var m := Inner(v); var t := DecodeTournament(env, v).value;
              Spelling(RrPtsForGameWin) in m && t.rrPtsForGameWin == PointsOf(env, m[Spelling(RrPtsForGameWin)])
    ensures var m := Inner(v); var t := DecodeTournament(env, v).value;
              Spelling(RrPtsForMatchTie) in m && t.rrPtsForMatchTie == PointsOf(env, m[Spelling(RrPtsForMatchTie)])
    ensures var m := Inner(v); var t := DecodeTournament(env, v).value;
              Spelling(RrPtsForMatchWin) in m && t.rrPtsForMatchWin == PointsOf(env, m[Spelling(RrPtsForMatchWin)])
    ensures var m := Inner(v); var t := DecodeTournament(env, v).value;
              Spelling(SequentialPairings) in m && t.sequentialPairings == FlagOf(m[Spelling(SequentialPairings)])
  {
    DecodeOk(env, v);
    Assembled28(env, Inner(v), ExtractAll(env, Inner(v), Fields).value);
    Assembled32(env, Inner(v), ExtractAll(env, Inner(v), Fields).value);
  }

  lemma Assembled35(env: Env, m: map<string, Json>, vals: seq<FieldValue>)
    requires Coerced(env, m, vals)
    ensures var t := Assemble(vals);
              Spelling(ShowRounds) in m && t.showRounds == FlagOf(m[Spelling(ShowRounds)])
    ensures var t := Assemble(vals);
              Spelling(SwissRounds) in m && t.swissRounds == CountOf(env, m[Spelling(SwissRounds)])
    ensures var t := Assemble(vals);
              Spelling(Teams) in m && t.teams == FlagOf(m[Spelling(Teams)])
    ensures var t := Assemble(vals);
              Spelling(TypeKey) in m && t.tournamentType == KindOf(m[Spelling(TypeKey)])
  {
    FieldEntries35();
    assert CoercedAt(env, m, vals, 35);
    assert CoercedAt(env, m, vals, 36);
    assert CoercedAt(env, m, vals, 37);
    assert CoercedAt(env, m, vals, 38);
  }

  lemma Assembled39(env: Env, m: map<string, Json>, vals: seq<FieldValue>)
    requires Coerced(env, m, vals)
    ensures var t := Assemble(vals);
              Spelling(UpdatedAt) in m && UpdatedAtOf(env, m[Spelling(UpdatedAt)]) == Ok(t.updatedAt)
    ensures var t := Assemble(vals);
              Spelling(UrlKey) in m && t.url == TextOf(m[Spelling(UrlKey)])
    ensures var t := Assemble(vals);
              Spelling(DescriptionSource) in m && t.descriptionSource == TextOf(m[Spelling(DescriptionSource)])
  {
    FieldEntries35();
    assert CoercedAt(env, m, vals, 39);
    assert CoercedAt(env, m, vals, 40);
    assert CoercedAt(env, m, vals, 41);
  }

  lemma DecodedFields35(env: Env, v: Json)
    requires DecodeTournament(env, v).Ok?
    ensures Enveloped(v)
    ensures var m := Inner(v); var t := DecodeTournament(env, v).value;
              Spelling(ShowRounds) in m && t.showRounds == FlagOf(m[Spelling(ShowRounds)])
    ensures var m := Inner(v); var t := DecodeTournament(env, v).value;
              Spelling(SwissRounds) in m && t.swissRounds == CountOf(env, m[Spelling(SwissRounds)])
    ensures var m := Inner(v); var t := DecodeTournament(env, v).value;
              Spelling(Teams) in m && t.teams == FlagOf(m[Spelling(Teams)])
    ensures var m := Inner(v); var t := DecodeTournament(env, v).value;
              Spelling(TypeKey) in m && t.tournamentType == KindOf(m[Spelling(TypeKey)])
    ensures var m := Inner(v); var t := DecodeTournament(env, v).value;
              Spelling(UpdatedAt) in m && UpdatedAtOf(env, m[Spelling(UpdatedAt)]) == Ok(t.updatedAt)
    ensures var m := Inner(v); var t := DecodeTournament(env, v).value;
              Spelling(UrlKey) in m && t.url == TextOf(m[Spelling(UrlKey)])
    ensures var m := Inner(v); var t := DecodeTournament(env, v).value;
              Spelling(DescriptionSource) in m && t.descriptionSource == TextOf(m[Spelling(DescriptionSource)])
  {
    DecodeOk(env, v);
    Assembled35(env, Inner(v), ExtractAll(env, Inner(v), Fields).value);
    Assembled39(env, Inner(v), ExtractAll(env, Inner(v), Fields).value);
  }

  lemma Assembled42(env: Env, m: map<string, Json>, vals: seq<FieldValue>)
    requires Coerced(env, m, vals)
    ensures var t := Assemble(vals);
              Spelling(FullChallongeUrl) in m && t.fullChallongeUrl == TextOf(m[Spelling(FullChallongeUrl)])
    ensures var t := Assemble(vals);
              Spelling(LiveImageUrl) in m && t.liveImageUrl == TextOf(m[Spelling(LiveImageUrl)])
    ensures var t := Assemble(vals);
              Spelling(ReviewBeforeFinalizing) in m && t.reviewBeforeFinalizing == FlagOf(m[Spelling(ReviewBeforeFinalizing)])
    ensures var t := Assemble(vals);
              Spelling(AcceptingPredictions) in m && t.acceptingPredictions == FlagOf(m[Spelling(AcceptingPredictions)])
  {
    FieldEntries42();
    assert CoercedAt(env, m, vals, 42);
    assert CoercedAt(env, m, vals, 43);
    assert CoercedAt(env, m, vals, 44);
    assert CoercedAt(env, m, vals, 45);
  }

  lemma Assembled46(env: Env, m: map<string, Json>, vals: seq<FieldValue>)
    requires Coerced(env, m, vals)
    ensures var t := Assemble(vals);
              Spelling(ParticipantsLocked) in m && t.participantsLocked == FlagOf(m[Spelling(ParticipantsLocked)])
    ensures var t := Assemble(vals);
              Spelling(GameName) in m && t.gameName == TextOf(m[Spelling(GameName)])
    ensures var t := Assemble(vals);
              Spelling(ParticipantsSwappable) in m && t.participantsSwappable == FlagOf(m[Spelling(ParticipantsSwappable)])
  {
    FieldEntries42();
    assert CoercedAt(env, m, vals, 46);
    assert CoercedAt(env, m, vals, 47);
    assert CoercedAt(env, m, vals, 48);
  }

  lemma DecodedFields42(env: Env, v: Json)
    requires DecodeTournament(env, v).Ok?
    ensures Enveloped(v)
    ensures var m := Inner(v); var t := DecodeTournament(env, v).value;
              Spelling(FullChallongeUrl) in m && t.fullChallongeUrl == TextOf(m[Spelling(FullChallongeUrl)])
    ensures var m := Inner(v); var t := DecodeTournament(env, v).value;
              Spelling(LiveImageUrl) in m && t.liveImageUrl == TextOf(m[Spelling(LiveImageUrl)])
    ensures var m := Inner(v); var t := DecodeTournament(env, v).value;
              Spelling(ReviewBeforeFinalizing) in m && t.reviewBeforeFinalizing == FlagOf(m[Spelling(ReviewBeforeFinalizing)])
    ensures var m := Inner(v); var t := DecodeTournament(env, v).value;
              Spelling(AcceptingPredictions) in m && t.acceptingPredictions == FlagOf(m[Spelling(AcceptingPredictions)])
    ensures var m := Inner(v); var t := DecodeTournament(env, v).value;
              Spelling(ParticipantsLocked) in m && t.participantsLocked == FlagOf(m[Spelling(ParticipantsLocked)])
    ensures var m := Inner(v); var t := DecodeTournament(env, v).value;
              Spelling(GameName) in m && t.gameName == TextOf(m[Spelling(GameName)])
    ensures var m := Inner(v); var t := DecodeTournament(env, v).value;
              Spelling(ParticipantsSwappable) in m && t.participantsSwappable == FlagOf(m[Spelling(ParticipantsSwappable)])
  {
    DecodeOk(env, v);
    Assembled42(env, Inner(v), ExtractAll(env, Inner(v), Fields).value);
    Assembled46(env, Inner(v), ExtractAll(env, Inner(v), Fields).value);
  }

  lemma Assembled49(env: Env, m: map<string, Json>, vals: seq<FieldValue>)
    requires Coerced(env, m, vals)
    ensures var t := Assemble(vals);
              Spelling(TeamConvertable) in m && t.teamConvertable == FlagOf(m[Spelling(TeamConvertable)])
    ensures var t := Assemble(vals);
              Spelling(GroupStagesWereStarted) in m && t.groupStagesWereStarted == FlagOf(m[Spelling(GroupStagesWereStarted)])
  {
    FieldEntries49();
    assert CoercedAt(env, m, vals, 49);
    assert CoercedAt(env, m, vals, 50);
  }

  lemma DecodedFields49(env: Env, v: Json)
    requires DecodeTournament(env, v).Ok?
    ensures Enveloped(v)
    ensures var m := Inner(v); var t := DecodeTournament(env, v).value;
              Spelling(TeamConvertable) in m && t.teamConvertable == FlagOf(m[Spelling(TeamConvertable)])
    ensures var m := Inner(v); var t := DecodeTournament(env, v).value;
              Spelling(GroupStagesWereStarted) in m && t.groupStagesWereStarted == FlagOf(m[Spelling(GroupStagesWereStarted)])
  {
    DecodeOk(env, v);
    Assembled49(env, Inner(v), ExtractAll(env, Inner(v), Fields).value);
  }
}
