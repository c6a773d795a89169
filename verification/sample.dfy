/**
  The sample payload of the repository's own unit test
  (`test_tournament_parse`): what the decoder makes of some of its values. The
  date and float parsers are parameters here, so the facts are stated for
  whatever they return on the sample's strings.
 */
module Sample {
  import opened Wrappers
  import opened Json
  import opened Collaborators
  import opened Enums
  import opened FieldTable
  import opened Decoder
  import opened DecoderFacts

  /** The sample's `tournament_type` text is the display form of single elimination. */
  lemma SampleKind()
    ensures KindOf(Str("single elimination")) == SingleElimination
  {
    TypeRoundTrip(SingleElimination);
  }

  /**
    An envelope that carries every key the decoder takes, with the sample's
    `created_at` and `updated_at` strings that the date parser accepts,
    decodes; when its object also carries the sample's `id`, `game_id`,
    `tournament_type`, `pts_for_bye`, `started_at`,
    `allow_participant_match_reporting`, `name`, `show_rounds` and `teams`
    values, the record holds what the test asserts: the id 1086875 and game id
    600 (when `as_u64` reads them so), single elimination, the float parse of
    "1.0", the parse of the start date, `true`, the name, `true` and `false`.
   */
  lemma SampleFields(env: Env, v: Json, bye: F64, started: DateTime)
    requires Enveloped(v)
    requires forall j :: 0 <= j < |Fields| ==> Fields[j].key() in Inner(v)
    requires Spelling(CreatedAt) in Inner(v) && Inner(v)[Spelling(CreatedAt)] == Str("2015-01-19T16:47:30-05:00")
    requires env.parseRfc3339("2015-01-19T16:47:30-05:00").Some?
    requires Spelling(UpdatedAt) in Inner(v) && Inner(v)[Spelling(UpdatedAt)] == Str("2015-01-19T16:57:17-05:00")
    requires env.parseRfc3339("2015-01-19T16:57:17-05:00").Some?
    requires Spelling(IdKey) in Inner(v) && Inner(v)[Spelling(IdKey)] == Num(PosInt(1086875))
    requires env.numberAsU64(PosInt(1086875)) == Some(1086875)
    requires Spelling(GameId) in Inner(v) && Inner(v)[Spelling(GameId)] == Num(PosInt(600))
    requires env.numberAsU64(PosInt(600)) == Some(600)
    requires Spelling(TypeKey) in Inner(v) && Inner(v)[Spelling(TypeKey)] == Str("single elimination")
    requires Spelling(PtsForBye) in Inner(v) && Inner(v)[Spelling(PtsForBye)] == Str("1.0")
    requires env.parseF64("1.0") == Some(bye)
    requires Spelling(StartedAt) in Inner(v) && Inner(v)[Spelling(StartedAt)] == Str("2015-01-19T16:57:17-05:00")
    requires env.parseRfc3339("2015-01-19T16:57:17-05:00") == Some(started)
    requires Spelling(AllowParticipantMatchReporting) in Inner(v) && Inner(v)[Spelling(AllowParticipantMatchReporting)] == Bool(true)
    requires Spelling(Name) in Inner(v) && Inner(v)[Spelling(Name)] == Str("Sample Tournament 1")
    requires Spelling(ShowRounds) in Inner(v) && Inner(v)[Spelling(ShowRounds)] == Bool(true)
    requires Spelling(Teams) in Inner(v) && Inner(v)[Spelling(Teams)] == Bool(false)
    ensures DecodeTournament(env, v).Ok?
    ensures DecodeTournament(env, v).value.id == 1086875
    ensures DecodeTournament(env, v).value.gameId == 600
    ensures DecodeTournament(env, v).value.tournamentType == SingleElimination
    ensures DecodeTournament(env, v).value.ptsForBye == bye
    ensures DecodeTournament(env, v).value.startedAt == Some(started)
    ensures DecodeTournament(env, v).value.allowParticipantMatchReporting
    ensures DecodeTournament(env, v).value.name == "Sample Tournament 1"
    ensures DecodeTournament(env, v).value.showRounds && !DecodeTournament(env, v).value.teams
  {
    DecodeAllKeysPresent(env, v);
    DecodedFields0(env, v);
    DecodedFields7(env, v);
    DecodedFields21(env, v);
    DecodedFields35(env, v);
    SampleKind();
  }
}
