/**
  The keys `Tournament::decode` takes out of the record object, in the order it
  takes them, and how each value is coerced.
 */
module FieldTable {
  import opened Wrappers

  /** How the value of one key becomes a record field (src/tournament.rs, line cited per case). */
  datatype Coercion =
    | Flag           // a boolean, false for any other value (line 230)
    | Count          // an unsigned number, 0 for anything without one (line 237)
    | Text           // a string, "" for any other value (line 236)
    | Points         // a quoted float: the parse of the string (of "" for a non-string), else 0.0 (line 252)
    | Kind           // a tournament type spelling, else single elimination (line 268)
    | OptionalStamp  // started_at: a date only for a string that parses, else none (lines 222-227)
    | LenientStamp   // created_at: the parse of the string (of "" for a non-string); a failed parse panics (line 233)
    | StrictStamp    // updated_at: a non-string panics, and so does a failed parse (line 269)

  /** The two coercions that can panic. */
  predicate Mandatory(c: Coercion) {
    c.LenientStamp? || c.StrictStamp?
  }

  /** One constructor per key the decoder reads, in extraction order. */
  datatype Key =
    | StartedAt
    | AcceptAttachments
    | AllowParticipantMatchReporting
    | AnonymousVoting
    | CreatedAt
    | CreatedByApi
    | CreditCapped
    | Description
    | GameId
    | IdKey
    | Name
    | GroupStagesEnabled
    | HideForum
    | HideSeeds
    | HoldThirdPlaceMatch
    | MaxPredictionsPerUser
    | NotifyUsersWhenMatchesOpen
    | NotifyUsersWhenTheTournamentEnds
    | OpenSignup
    | ParticipantsCount
    | PredictionMethod
    | Private
    | ProgressMeter
    | PtsForBye
    | PtsForGameTie
    | PtsForGameWin
    | PtsForMatchTie
    | PtsForMatchWin
    | QuickAdvance
    | RequireScoreAgreement
    | RrPtsForGameTie
    | RrPtsForGameWin
    | RrPtsForMatchTie
    | RrPtsForMatchWin
    | SequentialPairings
    | ShowRounds
    | SwissRounds
    | Teams
    | TypeKey
    | UpdatedAt
    | UrlKey
    | DescriptionSource
    | FullChallongeUrl
    | LiveImageUrl
    | ReviewBeforeFinalizing
    | AcceptingPredictions
    | ParticipantsLocked
    | GameName
    | ParticipantsSwappable
    | TeamConvertable
    | GroupStagesWereStarted

  /** The JSON spelling of a key. */
  function Spelling(k: Key): string {
    match k
    case StartedAt => "started_at"
    case AcceptAttachments => "accept_attachments"
    case AllowParticipantMatchReporting => "allow_participant_match_reporting"
    case AnonymousVoting => "anonymous_voting"
    case CreatedAt => "created_at"
    case CreatedByApi => "created_by_api"
    case CreditCapped => "credit_capped"
    case Description => "description"
    case GameId => "game_id"
    case IdKey => "id"
    case Name => "name"
    case GroupStagesEnabled => "group_stages_enabled"
    case HideForum => "hide_forum"
    case HideSeeds => "hide_seeds"
    case HoldThirdPlaceMatch => "hold_third_place_match"
    case MaxPredictionsPerUser => "max_predictions_per_user"
    case NotifyUsersWhenMatchesOpen => "notify_users_when_matches_open"
    case NotifyUsersWhenTheTournamentEnds => "notify_users_when_the_tournament_ends"
    case OpenSignup => "open_signup"
    case ParticipantsCount => "participants_count"
    case PredictionMethod => "prediction_method"
    case Private => "private"
    case ProgressMeter => "progress_meter"
    case PtsForBye => "pts_for_bye"
    case PtsForGameTie => "pts_for_game_tie"
    case PtsForGameWin => "pts_for_game_win"
    case PtsForMatchTie => "pts_for_match_tie"
    case PtsForMatchWin => "pts_for_match_win"
    case QuickAdvance => "quick_advance"
    case RequireScoreAgreement => "require_score_agreement"
    case RrPtsForGameTie => "rr_pts_for_game_tie"
    case RrPtsForGameWin => "rr_pts_for_game_win"
    case RrPtsForMatchTie => "rr_pts_for_match_tie"
    case RrPtsForMatchWin => "rr_pts_for_match_win"
    case SequentialPairings => "sequential_pairings"
    case ShowRounds => "show_rounds"
    case SwissRounds => "swiss_rounds"
    case Teams => "teams"
    case TypeKey => "tournament_type"
    case UpdatedAt => "updated_at"
    case UrlKey => "url"
    case DescriptionSource => "description_source"
    case FullChallongeUrl => "full_challonge_url"
    case LiveImageUrl => "live_image_url"
    case ReviewBeforeFinalizing => "review_before_finalizing"
    case AcceptingPredictions => "accepting_predictions"
    case ParticipantsLocked => "participants_locked"
    case GameName => "game_name"
    case ParticipantsSwappable => "participants_swappable"
    case TeamConvertable => "team_convertable"
    case GroupStagesWereStarted => "group_stages_were_started"
  }

  /**
    The key a JSON spelling names, if any. The spellings are grouped by length
    so that the verifier compares a string with the few literals of its length
    only: comparing it with all 51 literals at once is beyond its budget.
   */
  function KeyNamed(s: string): Option<Key> {
    if |s| == 2 then if s == "id" then Some(IdKey) else None
    else if |s| == 3 then if s == "url" then Some(UrlKey) else None
    else if |s| == 4 then if s == "name" then Some(Name) else None
    else if |s| == 5 then if s == "teams" then Some(Teams) else None
    else if |s| == 7 then if s == "game_id" then Some(GameId) else if s == "private" then Some(Private) else None
    else if |s| == 9 then if s == "game_name" then Some(GameName) else None
    else if |s| == 10 then if s == "started_at" then Some(StartedAt) else if s == "created_at" then Some(CreatedAt) else if s == "hide_forum" then Some(HideForum) else if s == "hide_seeds" then Some(HideSeeds) else if s == "updated_at" then Some(UpdatedAt) else None
    else if |s| == 11 then if s == "description" then Some(Description) else if s == "open_signup" then Some(OpenSignup) else if s == "pts_for_bye" then Some(PtsForBye) else if s == "show_rounds" then Some(ShowRounds) else None
    else if |s| == 12 then if s == "swiss_rounds" then Some(SwissRounds) else None
    else if |s| == 13 then if s == "credit_capped" then Some(CreditCapped) else if s == "quick_advance" then Some(QuickAdvance) else None
    else if |s| == 14 then if s == "created_by_api" then Some(CreatedByApi) else if s == "progress_meter" then Some(ProgressMeter) else if s == "live_image_url" then Some(LiveImageUrl) else None
    else if |s| == 15 then if s == "tournament_type" then Some(TypeKey) else None
    else if |s| == 16 then if s == "anonymous_voting" then Some(AnonymousVoting) else if s == "pts_for_game_tie" then Some(PtsForGameTie) else if s == "pts_for_game_win" then Some(PtsForGameWin) else if s == "team_convertable" then Some(TeamConvertable) else None
    else if |s| == 17 then if s == "prediction_method" then Some(PredictionMethod) else if s == "pts_for_match_tie" then Some(PtsForMatchTie) else if s == "pts_for_match_win" then Some(PtsForMatchWin) else None
    else if |s| == 18 then if s == "accept_attachments" then Some(AcceptAttachments) else if s == "participants_count" then Some(ParticipantsCount) else if s == "description_source" then Some(DescriptionSource) else if s == "full_challonge_url" then Some(FullChallongeUrl) else None
    else if |s| == 19 then if s == "rr_pts_for_game_tie" then Some(RrPtsForGameTie) else if s == "rr_pts_for_game_win" then Some(RrPtsForGameWin) else if s == "sequential_pairings" then Some(SequentialPairings) else if s == "participants_locked" then Some(ParticipantsLocked) else None
    else if |s| == 20 then if s == "group_stages_enabled" then Some(GroupStagesEnabled) else if s == "rr_pts_for_match_tie" then Some(RrPtsForMatchTie) else if s == "rr_pts_for_match_win" then Some(RrPtsForMatchWin) else None
    else if |s| == 21 then if s == "accepting_predictions" then Some(AcceptingPredictions) else None
    else if |s| == 22 then if s == "hold_third_place_match" then Some(HoldThirdPlaceMatch) else if s == "participants_swappable" then Some(ParticipantsSwappable) else None
    else if |s| == 23 then if s == "require_score_agreement" then Some(RequireScoreAgreement) else None
    else if |s| == 24 then if s == "max_predictions_per_user" then Some(MaxPredictionsPerUser) else if s == "review_before_finalizing" then Some(ReviewBeforeFinalizing) else None
    else if |s| == 25 then if s == "group_stages_were_started" then Some(GroupStagesWereStarted) else None
    else if |s| == 30 then if s == "notify_users_when_matches_open" then Some(NotifyUsersWhenMatchesOpen) else None
    else if |s| == 33 then if s == "allow_participant_match_reporting" then Some(AllowParticipantMatchReporting) else None
    else if |s| == 37 then if s == "notify_users_when_the_tournament_ends" then Some(NotifyUsersWhenTheTournamentEnds) else None
    else None
  }

  /** Every key's spelling names it, so no two keys share a spelling. */
  lemma SpellingRoundTrip(k: Key)
    ensures KeyNamed(Spelling(k)) == Some(k)
  {
    if Position(k) < 4 {
      SpellingRoundTrip0(k);
    } else if Position(k) < 8 {
      SpellingRoundTrip4(k);
    } else if Position(k) < 12 {
      SpellingRoundTrip8(k);
    } else if Position(k) < 16 {
      SpellingRoundTrip12(k);
    } else if Position(k) < 20 {
      SpellingRoundTrip16(k);
    } else if Position(k) < 24 {
      SpellingRoundTrip20(k);
    } else if Position(k) < 28 {
      SpellingRoundTrip24(k);
    } else if Position(k) < 32 {
      SpellingRoundTrip28(k);
    } else if Position(k) < 36 {
      SpellingRoundTrip32(k);
    } else if Position(k) < 40 {
      SpellingRoundTrip36(k);
    } else if Position(k) < 44 {
      SpellingRoundTrip40(k);
    } else if Position(k) < 48 {
      SpellingRoundTrip44(k);
    } else {
      SpellingRoundTrip48(k);
    }
  }

  /*
    The round trip, four keys at a time. A single lemma over all 51 keys makes
    the verifier unfold every spelling literal in one proof, which exhausts its
    budget; each part below unfolds four.
   */
  lemma SpellingRoundTrip0(k: Key)
    requires 0 <= Position(k) < 4
    ensures KeyNamed(Spelling(k)) == Some(k)
  {
  }

  lemma SpellingRoundTrip4(k: Key)
    requires 4 <= Position(k) < 8
    ensures KeyNamed(Spelling(k)) == Some(k)
  {
  }

  lemma SpellingRoundTrip8(k: Key)
    requires 8 <= Position(k) < 12
    ensures KeyNamed(Spelling(k)) == Some(k)
  {
  }

  lemma SpellingRoundTrip12(k: Key)
    requires 12 <= Position(k) < 16
    ensures KeyNamed(Spelling(k)) == Some(k)
  {
  }

  lemma SpellingRoundTrip16(k: Key)
    requires 16 <= Position(k) < 20
    ensures KeyNamed(Spelling(k)) == Some(k)
  {
  }

  lemma SpellingRoundTrip20(k: Key)
    requires 20 <= Position(k) < 24
    ensures KeyNamed(Spelling(k)) == Some(k)
  {
  }

  lemma SpellingRoundTrip24(k: Key)
    requires 24 <= Position(k) < 28
    ensures KeyNamed(Spelling(k)) == Some(k)
  {
  }

  lemma SpellingRoundTrip28(k: Key)
    requires 28 <= Position(k) < 32
    ensures KeyNamed(Spelling(k)) == Some(k)
  {
  }

  lemma SpellingRoundTrip32(k: Key)
    requires 32 <= Position(k) < 36
    ensures KeyNamed(Spelling(k)) == Some(k)
  {
  }

  lemma SpellingRoundTrip36(k: Key)
    requires 36 <= Position(k) < 40
    ensures KeyNamed(Spelling(k)) == Some(k)
  {
  }

  lemma SpellingRoundTrip40(k: Key)
    requires 40 <= Position(k) < 44
    ensures KeyNamed(Spelling(k)) == Some(k)
  {
  }

  lemma SpellingRoundTrip44(k: Key)
    requires 44 <= Position(k) < 48
    ensures KeyNamed(Spelling(k)) == Some(k)
  {
  }

  lemma SpellingRoundTrip48(k: Key)
    requires 48 <= Position(k) < 51
    ensures KeyNamed(Spelling(k)) == Some(k)
  {
  }

  lemma SpellingInjective(a: Key, b: Key)
    ensures Spelling(a) == Spelling(b) <==> a == b
  {
    SpellingRoundTrip(a);
    SpellingRoundTrip(b);
  }

  /** A key to take and how to coerce its value. */
  datatype Field = Field(name: Key, coercion: Coercion) {
    function key(): string {
      Spelling(name)
    }
  }

  /**
    The keys the decoder takes, in the order it takes them: `started_at`
    first, then the order of the struct literal. The table is written in
    blocks of seven rows; `RowsK` holds the entries from index K on.
   */
  const Fields: seq<Field> := ((Rows0 + Rows7) + (Rows14 + Rows21)) + ((Rows28 + Rows35) + (Rows42 + Rows49))

  const Rows0: seq<Field> := [
    Field(StartedAt, OptionalStamp),
    Field(AcceptAttachments, Flag),
    Field(AllowParticipantMatchReporting, Flag),
    Field(AnonymousVoting, Flag),
    Field(CreatedAt, LenientStamp),
    Field(CreatedByApi, Flag),
    Field(CreditCapped, Flag)
  ]

  const Rows7: seq<Field> := [
    Field(Description, Text),
    Field(GameId, Count),
    Field(IdKey, Count),
    Field(Name, Text),
    Field(GroupStagesEnabled, Flag),
    Field(HideForum, Flag),
    Field(HideSeeds, Flag)
  ]

  const Rows14: seq<Field> := [
    Field(HoldThirdPlaceMatch, Flag),
    Field(MaxPredictionsPerUser, Count),
    Field(NotifyUsersWhenMatchesOpen, Flag),
    Field(NotifyUsersWhenTheTournamentEnds, Flag),
    Field(OpenSignup, Flag),
    Field(ParticipantsCount, Count),
    Field(PredictionMethod, Count)
  ]

  const Rows21: seq<Field> := [
    Field(Private, Flag),
    Field(ProgressMeter, Count),
    Field(PtsForBye, Points),
    Field(PtsForGameTie, Points),
    Field(PtsForGameWin, Points),
    Field(PtsForMatchTie, Points),
    Field(PtsForMatchWin, Points)
  ]

  const Rows28: seq<Field> := [
    Field(QuickAdvance, Flag),
    Field(RequireScoreAgreement, Flag),
    Field(RrPtsForGameTie, Points),
    Field(RrPtsForGameWin, Points),
    Field(RrPtsForMatchTie, Points),
    Field(RrPtsForMatchWin, Points),
    Field(SequentialPairings, Flag)
  ]

  const Rows35: seq<Field> := [
    Field(ShowRounds, Flag),
    Field(SwissRounds, Count),
    Field(Teams, Flag),
    Field(TypeKey, Kind),
    Field(UpdatedAt, StrictStamp),
    Field(UrlKey, Text),
    Field(DescriptionSource, Text)
  ]

  const Rows42: seq<Field> := [
    Field(FullChallongeUrl, Text),
    Field(LiveImageUrl, Text),
    Field(ReviewBeforeFinalizing, Flag),
    Field(AcceptingPredictions, Flag),
    Field(ParticipantsLocked, Flag),
    Field(GameName, Text),
    Field(ParticipantsSwappable, Flag)
  ]

  const Rows49: seq<Field> := [
    Field(TeamConvertable, Flag),
    Field(GroupStagesWereStarted, Flag)
  ]

  predicate DistinctKeys(fields: seq<Field>) {
    forall i, j :: 0 <= i < j < |fields| ==> fields[i].key() != fields[j].key()
  }

  /** The index of a key's row in `Fields`. */
  function Position(k: Key): nat {
    match k
    case StartedAt => 0
    case AcceptAttachments => 1
    case AllowParticipantMatchReporting => 2
    case AnonymousVoting => 3
    case CreatedAt => 4
    case CreatedByApi => 5
    case CreditCapped => 6
    case Description => 7
    case GameId => 8
    case IdKey => 9
    case Name => 10
    case GroupStagesEnabled => 11
    case HideForum => 12
    case HideSeeds => 13
    case HoldThirdPlaceMatch => 14
    case MaxPredictionsPerUser => 15
    case NotifyUsersWhenMatchesOpen => 16
    case NotifyUsersWhenTheTournamentEnds => 17
    case OpenSignup => 18
    case ParticipantsCount => 19
    case PredictionMethod => 20
    case Private => 21
    case ProgressMeter => 22
    case PtsForBye => 23
    case PtsForGameTie => 24
    case PtsForGameWin => 25
    case PtsForMatchTie => 26
    case PtsForMatchWin => 27
    case QuickAdvance => 28
    case RequireScoreAgreement => 29
    case RrPtsForGameTie => 30
    case RrPtsForGameWin => 31
    case RrPtsForMatchTie => 32
    case RrPtsForMatchWin => 33
    case SequentialPairings => 34
    case ShowRounds => 35
    case SwissRounds => 36
    case Teams => 37
    case TypeKey => 38
    case UpdatedAt => 39
    case UrlKey => 40
    case DescriptionSource => 41
    case FullChallongeUrl => 42
    case LiveImageUrl => 43
    case ReviewBeforeFinalizing => 44
    case AcceptingPredictions => 45
    case ParticipantsLocked => 46
    case GameName => 47
    case ParticipantsSwappable => 48
    case TeamConvertable => 49
    case GroupStagesWereStarted => 50
  }

  /*
    The rows of each block are where `Position` says. These facts, and the
    `FieldEntriesK` ones below, are stated per seven-row block because a
    statement about the whole 51-row table at once is too costly to verify;
    `FieldsDistinct`, `MandatoryFields` and `StampPositions` combine them.
   */
  lemma Positions0()
    ensures forall i :: 0 <= i < |Rows0| ==> Position(Rows0[i].name) == 0 + i
  {
  }

  lemma Positions7()
    ensures forall i :: 0 <= i < |Rows7| ==> Position(Rows7[i].name) == 7 + i
  {
  }

  lemma Positions14()
    ensures forall i :: 0 <= i < |Rows14| ==> Position(Rows14[i].name) == 14 + i
  {
  }

  lemma Positions21()
    ensures forall i :: 0 <= i < |Rows21| ==> Position(Rows21[i].name) == 21 + i
  {
  }

  lemma Positions28()
    ensures forall i :: 0 <= i < |Rows28| ==> Position(Rows28[i].name) == 28 + i
  {
  }

  lemma Positions35()
    ensures forall i :: 0 <= i < |Rows35| ==> Position(Rows35[i].name) == 35 + i
  {
  }

  lemma Positions42()
    ensures forall i :: 0 <= i < |Rows42| ==> Position(Rows42[i].name) == 42 + i
  {
  }

  lemma Positions49()
    ensures forall i :: 0 <= i < |Rows49| ==> Position(Rows49[i].name) == 49 + i
  {
  }

  /** No key is taken twice: each row's key sits at its own position. */
  lemma FieldsDistinct()
    ensures DistinctKeys(Fields)
  {
    Positions0();
    Positions7();
    Positions14();
    Positions21();
    Positions28();
    Positions35();
    Positions42();
    Positions49();
    assert forall i :: 0 <= i < |Fields| ==> Position(Fields[i].name) == i;
    forall i, j | 0 <= i < j < |Fields| ensures Fields[i].key() != Fields[j].key() {
      SpellingInjective(Fields[i].name, Fields[j].name);
    }
  }

  /** Exactly two entries can panic: `created_at` at index 4 and `updated_at` at index 39. */
  lemma MandatoryFields()
    ensures forall i :: 0 <= i < |Fields| ==> (Mandatory(Fields[i].coercion) <==> i == 4 || i == 39)
  {
    assert forall i :: 0 <= i < |Rows0| ==> (Mandatory(Rows0[i].coercion) <==> i == 4);
    assert forall i :: 0 <= i < |Rows7| ==> (Mandatory(Rows7[i].coercion) <==> false);
    assert forall i :: 0 <= i < |Rows14| ==> (Mandatory(Rows14[i].coercion) <==> false);
    assert forall i :: 0 <= i < |Rows21| ==> (Mandatory(Rows21[i].coercion) <==> false);
    assert forall i :: 0 <= i < |Rows28| ==> (Mandatory(Rows28[i].coercion) <==> false);
    assert forall i :: 0 <= i < |Rows35| ==> (Mandatory(Rows35[i].coercion) <==> i == 4);
    assert forall i :: 0 <= i < |Rows42| ==> (Mandatory(Rows42[i].coercion) <==> false);
    assert forall i :: 0 <= i < |Rows49| ==> (Mandatory(Rows49[i].coercion) <==> false);
  }

  // The table's entries, block by block (see `Positions0` for why blocks).
  lemma FieldEntries0()
    ensures Fields[0] == Field(StartedAt, OptionalStamp)
    ensures Fields[1] == Field(AcceptAttachments, Flag)
    ensures Fields[2] == Field(AllowParticipantMatchReporting, Flag)
    ensures Fields[3] == Field(AnonymousVoting, Flag)
    ensures Fields[4] == Field(CreatedAt, LenientStamp)
    ensures Fields[5] == Field(CreatedByApi, Flag)
    ensures Fields[6] == Field(CreditCapped, Flag)
  {
  }

  lemma FieldEntries7()
    ensures Fields[7] == Field(Description, Text)
    ensures Fields[8] == Field(GameId, Count)
    ensures Fields[9] == Field(IdKey, Count)
    ensures Fields[10] == Field(Name, Text)
    ensures Fields[11] == Field(GroupStagesEnabled, Flag)
    ensures Fields[12] == Field(HideForum, Flag)
    ensures Fields[13] == Field(HideSeeds, Flag)
  {
  }

  lemma FieldEntries14()
    ensures Fields[14] == Field(HoldThirdPlaceMatch, Flag)
    ensures Fields[15] == Field(MaxPredictionsPerUser, Count)
    ensures Fields[16] == Field(NotifyUsersWhenMatchesOpen, Flag)
    ensures Fields[17] == Field(NotifyUsersWhenTheTournamentEnds, Flag)
    ensures Fields[18] == Field(OpenSignup, Flag)
    ensures Fields[19] == Field(ParticipantsCount, Count)
    ensures Fields[20] == Field(PredictionMethod, Count)
  {
  }

  lemma FieldEntries21()
    ensures Fields[21] == Field(Private, Flag)
    ensures Fields[22] == Field(ProgressMeter, Count)
    ensures Fields[23] == Field(PtsForBye, Points)
    ensures Fields[24] == Field(PtsForGameTie, Points)
    ensures Fields[25] == Field(PtsForGameWin, Points)
    ensures Fields[26] == Field(PtsForMatchTie, Points)
    ensures Fields[27] == Field(PtsForMatchWin, Points)
  {
  }

  lemma FieldEntries28()
    ensures Fields[28] == Field(QuickAdvance, Flag)
    ensures Fields[29] == Field(RequireScoreAgreement, Flag)
    ensures Fields[30] == Field(RrPtsForGameTie, Points)
    ensures Fields[31] == Field(RrPtsForGameWin, Points)
    ensures Fields[32] == Field(RrPtsForMatchTie, Points)
    ensures Fields[33] == Field(RrPtsForMatchWin, Points)
    ensures Fields[34] == Field(SequentialPairings, Flag)
  {
  }

  lemma FieldEntries35()
    ensures Fields[35] == Field(ShowRounds, Flag)
    ensures Fields[36] == Field(SwissRounds, Count)
    ensures Fields[37] == Field(Teams, Flag)
    ensures Fields[38] == Field(TypeKey, Kind)
    ensures Fields[39] == Field(UpdatedAt, StrictStamp)
    ensures Fields[40] == Field(UrlKey, Text)
    ensures Fields[41] == Field(DescriptionSource, Text)
  {
  }

  lemma FieldEntries42()
    ensures Fields[42] == Field(FullChallongeUrl, Text)
    ensures Fields[43] == Field(LiveImageUrl, Text)
    ensures Fields[44] == Field(ReviewBeforeFinalizing, Flag)
    ensures Fields[45] == Field(AcceptingPredictions, Flag)
    ensures Fields[46] == Field(ParticipantsLocked, Flag)
    ensures Fields[47] == Field(GameName, Text)
    ensures Fields[48] == Field(ParticipantsSwappable, Flag)
  {
  }

  lemma FieldEntries49()
    ensures Fields[49] == Field(TeamConvertable, Flag)
    ensures Fields[50] == Field(GroupStagesWereStarted, Flag)
  {
  }

  /** Where the three stamps sit in the table. */
  lemma StampPositions()
    ensures Fields[0] == Field(StartedAt, OptionalStamp)
    ensures Fields[4] == Field(CreatedAt, LenientStamp)
    ensures Fields[39] == Field(UpdatedAt, StrictStamp)
  {
  }
}

/**
  `Tournament::decode`: unwraps the `{"tournament": {...}}` envelope, then takes
  a fixed list of keys out of the inner object one after another, coercing each
  value with a zero-value fallback. Only an absent key is an `Err`; only a
  malformed `created_at` / `updated_at` value makes the decoder panic.
 */
module Decoder {
  import opened Wrappers
  import opened Json
  import opened Collaborators
  import opened Accessors
  import opened Enums
  import opened FieldTable

  datatype Tournament = Tournament(
    acceptAttachments: bool,
    allowParticipantMatchReporting: bool,
    anonymousVoting: bool,
    createdAt: DateTime,
    createdByApi: bool,
    creditCapped: bool,
    description: string,
    gameId: U64,
    groupStagesEnabled: bool,
    hideForum: bool,
    hideSeeds: bool,
    holdThirdPlaceMatch: bool,
    id: U64,
    maxPredictionsPerUser: U64,
    name: string,
    notifyUsersWhenMatchesOpen: bool,
    notifyUsersWhenTheTournamentEnds: bool,
    openSignup: bool,
    participantsCount: U64,
    predictionMethod: U64,
    private: bool,
    progressMeter: U64,
    ptsForBye: F64,
    ptsForGameTie: F64,
    ptsForGameWin: F64,
    ptsForMatchTie: F64,
    ptsForMatchWin: F64,
    quickAdvance: bool,
    requireScoreAgreement: bool,
    rrPtsForGameTie: F64,
    rrPtsForGameWin: F64,
    rrPtsForMatchTie: F64,
    rrPtsForMatchWin: F64,
    sequentialPairings: bool,
    showRounds: bool,
    startedAt: Option<DateTime>,
    swissRounds: U64,
    teams: bool,
    tournamentType: TournamentType,
    updatedAt: DateTime,
    url: string,
    descriptionSource: string,
    fullChallongeUrl: string,
    liveImageUrl: string,
    reviewBeforeFinalizing: bool,
    acceptingPredictions: bool,
    participantsLocked: bool,
    gameName: string,
    participantsSwappable: bool,
    teamConvertable: bool,
    groupStagesWereStarted: bool)

  /** A coerced value, tagged with the coercion that produced it. */
  datatype FieldValue =
    | FlagV(flag: bool)
    | CountV(count: U64)
    | TextV(text: string)
    | PointsV(points: F64)
    | KindV(kind: TournamentType)
    | MaybeStampV(maybe: Option<DateTime>)
    | StampV(stamp: DateTime)
  {
    /*
      Readers for `Assemble`. In a sequence that `Conforms` to `Fields` every
      value has the shape its field's reader expects, so the fallbacks after
      `else` are never taken for a decoded record.
     */
    function AsFlag(): bool { if FlagV? then flag else false }
    function AsCount(): U64 { if CountV? then count else 0 }
    function AsText(): string { if TextV? then text else "" }
    function AsPoints(): F64 { if PointsV? then points else Zero }
    function AsKind(): TournamentType { if KindV? then kind else SingleElimination }
    function AsMaybeStamp(): Option<DateTime> { if MaybeStampV? then maybe else None }
    function AsStamp(): DateTime { if StampV? then stamp else DateTime(0, 0, 0) }
  }

  /** `x` is a value coercion `c` can produce. */
  predicate Fits(x: FieldValue, c: Coercion) {
    match c
    case Flag => x.FlagV?
    case Count => x.CountV?
    case Text => x.TextV?
    case Points => x.PointsV?
    case Kind => x.KindV?
    case OptionalStamp => x.MaybeStampV?
    case LenientStamp => x.StampV?
    case StrictStamp => x.StampV?
  }

  /** One value per field, each of the field's shape. */
  predicate Conforms(vals: seq<FieldValue>, fields: seq<Field>) {
    |vals| == |fields| && forall i :: 0 <= i < |vals| ==> Fits(vals[i], fields[i].coercion)
  }

  /** Boolean fields: only the literal `true` reads as true; every other value is `false`. */
  function FlagOf(v: Json): (r: bool)
    ensures r <==> v == Bool(true)
  {
    AsBoolean(v).GetOr(false)
  }

  /** Unsigned fields: the number's `as_u64`, and 0 for anything that has none. */
  function CountOf(env: Env, v: Json): (r: U64)
    ensures v.Num? && env.numberAsU64(v.n).Some? ==> r == env.numberAsU64(v.n).value
    ensures r != 0 ==> v.Num? && env.numberAsU64(v.n) == Some(r)
  {
    AsU64(env, v).GetOr(0)
  }

  /** Text fields: the string itself, and "" for any other value. */
  function TextOf(v: Json): (r: string)
    ensures v.Str? ==> r == v.s
    ensures r != "" ==> v == Str(r)
  {
    AsString(v).GetOr("")
  }

  /**
    Scoring fields arrive as quoted numbers: the parse of the string, else 0.0.
    A value that is not a string is parsed as "", which falls back to 0.0
    whenever the float parser rejects "".
   */
  function PointsOf(env: Env, v: Json): (r: F64)
    ensures v.Str? && env.parseF64(v.s).Some? ==> r == env.parseF64(v.s).value
    ensures v.Str? && env.parseF64(v.s).None? ==> r == Zero
    ensures !v.Str? && env.parseF64("") == None ==> r == Zero
    ensures r != Zero ==> env.parseF64(if v.Str? then v.s else "") == Some(r)
    ensures !v.Str? ==> r == env.parseF64("").GetOr(Zero)
  {
    env.parseF64(AsString(v).GetOr("")).GetOr(Zero)
  }

  /** `tournament_type`: the type a string names, else `SingleElimination`; never an error. */
  function KindOf(v: Json): (r: TournamentType)
    ensures v.Str? && v.s in Spellings ==> FromStr(v.s) == Some(r)
    ensures !v.Str? || v.s !in Spellings ==> r == SingleElimination
  {
    FromStr(AsString(v).GetOr("")).GetOr(SingleElimination)
  }

  /** `started_at`: present exactly when the value is a string that parses as RFC 3339. */
  function StartedAtOf(env: Env, v: Json): (r: Option<DateTime>)
    ensures r.Some? <==> v.Str? && env.parseRfc3339(v.s).Some?
    ensures r.Some? ==> env.parseRfc3339(v.s) == r
  {
    match AsString(v)
    case Some(s) => env.parseRfc3339(s)
    case None => None
  }

  /**
    `created_at`: a value that is not a string is parsed as "", and a failed
    parse panics. Success needs a string that parses, as long as "" does not.
   */
  function CreatedAtOf(env: Env, v: Json): (r: Outcome<DateTime>)
    ensures !r.Err?
    ensures r.Ok? <==> env.parseRfc3339(if v.Str? then v.s else "").Some?
    ensures r.Ok? ==> env.parseRfc3339(if v.Str? then v.s else "") == Some(r.value)
    ensures env.parseRfc3339("") == None ==> (r.Ok? <==> v.Str? && env.parseRfc3339(v.s).Some?)
  {
    match env.parseRfc3339(AsString(v).GetOr(""))
    case Some(d) => Ok(d)
    case None => Panic
  }

  /** `updated_at`: a value that is not a string panics, and so does a failed parse. */
  function UpdatedAtOf(env: Env, v: Json): (r: Outcome<DateTime>)
    ensures !r.Err?
    ensures r.Ok? <==> v.Str? && env.parseRfc3339(v.s).Some?
    ensures r.Ok? ==> env.parseRfc3339(v.s) == Some(r.value)
  {
    match AsString(v)
    case None => Panic
    case Some(s) =>
      match env.parseRfc3339(s)
      case Some(d) => Ok(d)
      case None => Panic
  }

  /** Applies a coercion. It never yields `Err`, and only the two mandatory stamps can panic. */
  function Coerce(env: Env, c: Coercion, v: Json): (r: Outcome<FieldValue>)
    ensures !r.Err?
    ensures r.Panic? ==> Mandatory(c)
    ensures r.Ok? ==> Fits(r.value, c)
  {
    match c
    case Flag => Ok(FlagV(FlagOf(v)))
    case Count => Ok(CountV(CountOf(env, v)))
    case Text => Ok(TextV(TextOf(v)))
    case Points => Ok(PointsV(PointsOf(env, v)))
    case Kind => Ok(KindV(KindOf(v)))
    case OptionalStamp => Ok(MaybeStampV(StartedAtOf(env, v)))
    case LenientStamp =>
      (match CreatedAtOf(env, v)
       case Ok(d) => Ok(StampV(d))
       case Err(e) => Err(e)
       case Panic => Panic)
    case StrictStamp =>
      (match UpdatedAtOf(env, v)
       case Ok(d) => Ok(StampV(d))
       case Err(e) => Err(e)
       case Panic => Panic)
  }

  /**
    Takes the fields out of `m` one after another, each through `Remove` on
    what the previous ones left. The first absent key ends the run with its
    error and the first panicking coercion ends it with a panic; otherwise the
    result holds one value of the right shape per field.
   */
  function ExtractAll(env: Env, m: map<string, Json>, fields: seq<Field>): (r: Outcome<seq<FieldValue>>)
    ensures r.Ok? ==> Conforms(r.value, fields)
    ensures r.Err? ==> r.error.reason == UnexpectedAbsentKey
    decreases |fields|
  {
    if |fields| == 0 then Ok([])
    else
      var removal := Remove(m, fields[0].key());
      match removal.result
      case Err(e) => Err(e)
      case Panic => Panic
      case Ok(v) =>
        match Coerce(env, fields[0].coercion, v)
        case Err(e) => Err(e)
        case Panic => Panic
        case Ok(x) =>
          match ExtractAll(env, removal.rest, fields[1..])
          case Ok(xs) => Ok([x] + xs)
          case Err(e) => Err(e)
          case Panic => Panic
  }

  /** Field `f` is present in `m` and its coercion does not panic. */
  predicate Passes(env: Env, m: map<string, Json>, f: Field) {
    f.key() in m && !Coerce(env, f.coercion, m[f.key()]).Panic?
  }

  /**
    Reference for `ExtractAll`, read off the original map with no removal: the
    index of the first field that is absent or panics, or `|fields|` when none.
   */
  function FirstStop(env: Env, m: map<string, Json>, fields: seq<Field>): (i: nat)
    ensures i <= |fields|
    ensures forall j :: 0 <= j < i ==> Passes(env, m, fields[j])
    ensures i < |fields| ==> !Passes(env, m, fields[i])
    decreases |fields|
  {
    if |fields| == 0 || !Passes(env, m, fields[0]) then 0
    else 1 + FirstStop(env, m, fields[1..])
  }

  /** Builds the record from the values taken in `Fields` order. */
  function Assemble(vals: seq<FieldValue>): Tournament
    requires |vals| == |Fields|
  {
    Tournament(
      acceptAttachments := vals[1].AsFlag(),
      allowParticipantMatchReporting := vals[2].AsFlag(),
      anonymousVoting := vals[3].AsFlag(),
      createdAt := vals[4].AsStamp(),
      createdByApi := vals[5].AsFlag(),
      creditCapped := vals[6].AsFlag(),
      description := vals[7].AsText(),
      gameId := vals[8].AsCount(),
      groupStagesEnabled := vals[11].AsFlag(),
      hideForum := vals[12].AsFlag(),
      hideSeeds := vals[13].AsFlag(),
      holdThirdPlaceMatch := vals[14].AsFlag(),
      id := vals[9].AsCount(),
      maxPredictionsPerUser := vals[15].AsCount(),
      name := vals[10].AsText(),
      notifyUsersWhenMatchesOpen := vals[16].AsFlag(),
      notifyUsersWhenTheTournamentEnds := vals[17].AsFlag(),
      openSignup := vals[18].AsFlag(),
      participantsCount := vals[19].AsCount(),
      predictionMethod := vals[20].AsCount(),
      private := vals[21].AsFlag(),
      progressMeter := vals[22].AsCount(),
      ptsForBye := vals[23].AsPoints(),
      ptsForGameTie := vals[24].AsPoints(),
      ptsForGameWin := vals[25].AsPoints(),
      ptsForMatchTie := vals[26].AsPoints(),
      ptsForMatchWin := vals[27].AsPoints(),
      quickAdvance := vals[28].AsFlag(),
      requireScoreAgreement := vals[29].AsFlag(),
      rrPtsForGameTie := vals[30].AsPoints(),
      rrPtsForGameWin := vals[31].AsPoints(),
      rrPtsForMatchTie := vals[32].AsPoints(),
      rrPtsForMatchWin := vals[33].AsPoints(),
      sequentialPairings := vals[34].AsFlag(),
      showRounds := vals[35].AsFlag(),
      startedAt := vals[0].AsMaybeStamp(),
      swissRounds := vals[36].AsCount(),
      teams := vals[37].AsFlag(),
      tournamentType := vals[38].AsKind(),
      updatedAt := vals[39].AsStamp(),
      url := vals[40].AsText(),
      descriptionSource := vals[41].AsText(),
      fullChallongeUrl := vals[42].AsText(),
      liveImageUrl := vals[43].AsText(),
      reviewBeforeFinalizing := vals[44].AsFlag(),
      acceptingPredictions := vals[45].AsFlag(),
      participantsLocked := vals[46].AsFlag(),
      gameName := vals[47].AsText(),
      participantsSwappable := vals[48].AsFlag(),
      teamConvertable := vals[49].AsFlag(),
      groupStagesWereStarted := vals[50].AsFlag())
  }

  /** The envelope is an object whose "tournament" entry is an object. */
  predicate Enveloped(v: Json) {
    v.Obj? && "tournament" in v.fields && v.fields["tournament"].Obj?
  }

  /** The record's own key/value map inside a well-formed envelope. */
  function Inner(v: Json): map<string, Json>
    requires Enveloped(v)
  {
    v.fields["tournament"].fields
  }

  /**
    `Tournament::decode`. The envelope failures come first and are errors
    naming the value or key at fault; past them, the outcome is decided by the
    field extraction alone.
   */
  function DecodeTournament(env: Env, v: Json): (r: Outcome<Tournament>)
    ensures !v.Obj? ==> r == Err(Decode(ExpectedObject, v))
    ensures v.Obj? && "tournament" !in v.fields ==> r == Err(Decode(UnexpectedAbsentKey, Str("tournament")))
    ensures v.Obj? && "tournament" in v.fields && !v.fields["tournament"].Obj? ==>
              r == Err(Decode(ExpectedObject, v.fields["tournament"]))
    ensures Enveloped(v) ==> (r.Ok? <==> ExtractAll(env, Inner(v), Fields).Ok?)
  {
    match IntoMap(v)
    case Err(e) => Err(e)
    case Panic => Panic
    case Ok(outer) =>
      var removal := Remove(outer, "tournament");
      match removal.result
      case Err(e) => Err(e)
      case Panic => Panic
      case Ok(t) =>
        match IntoMap(t)
        case Err(e) => Err(e)
        case Panic => Panic
        case Ok(tv) =>
          match ExtractAll(env, tv, Fields)
          case Ok(vals) => Ok(Assemble(vals))
          case Err(e) => Err(e)
          case Panic => Panic
  }
}
