# challonge-rs tournament decoder, modelled in Dafny

This project models the decoding core of `src/tournament.rs` in challonge-rs,
a Rust client for the Challonge tournament service:

- `into_map` and `remove`, the two accessors the decoder reads a payload with;
- `Tournament::decode`, which turns an envelope `{"tournament": {...}}` into a
  51-field `Tournament` record;
- `decode_tournaments` and `Index::decode`, the best-effort decoding of a list;
- the text forms of the enumerations: `Display` for `RankedBy`,
  `TournamentId`, `TournamentState` and `TournamentType`, and
  `TournamentType::to_get_param` and `from_str`.

The JSON tree is the `Json` datatype (serde_json's `Value`). `Outcome<T>` has
three cases: `Ok`, `Err` (the crate's `Error::Decode(reason, value)`) and
`Panic`. A panic is what an `unwrap` on a `None` or an `Err` does in the
source.

Three collaborators are not modelled. They are passed in as the fields of an
`Env` value of total functions:

- chrono's RFC 3339 parser;
- Rust's `str::parse::<f64>`;
- serde_json's `as_u64` on a number.

Floats are opaque bit patterns.

### How decoding is modelled

The decoder's sequence of `try!(remove(&mut tv, key))` calls is a table,
`FieldTable.Fields`. It has one row per key, in extraction order, and each row
names a key and a coercion:

- `started_at` comes first, because the source takes it before the struct
  literal;
- the other 50 keys follow in the order the struct literal lists them.

`Decoder.ExtractAll` folds over the table, and each step calls `Remove` on
what the previous steps left. `Decoder.FirstStop` is an independent reference
definition that reads every key from the original map. It gives the index of
the first field that is absent or whose coercion panics.
`DecoderFacts.ExtractAllSpec` proves that the two agree. Keys are a datatype
`Key`, and `Spelling` gives each key's JSON spelling.

### Where the code is stricter than a reader might expect

The model follows the code in each case:

- **Absent timestamp keys.** `started_at` is declared as an `Option` at
  src/tournament.rs:190, yet a missing `started_at` key is an `Err` naming it.
  The `try!(remove(..))` at line 223 runs before any parsing, and `started_at`
  is the first key taken (`DecoderFacts.MissingStartedAt`). A missing
  `created_at` or `updated_at` key is an `Err` naming it only when it is the
  first field, in extraction order, that is absent or panics. An earlier absent
  key is named instead, and a malformed `created_at` before a missing
  `updated_at` panics (`DecoderFacts.DecodeOutcome`).
- **Malformed mandatory dates.** A present but malformed `created_at` or
  `updated_at` is a panic, not a decode error. The cause is the `.unwrap()` at
  lines 233 and 269.
- **`created_at` that is not a string.** It is parsed as `""`. It therefore
  fails only because the date parser rejects `""`. `updated_at` panics on a
  non-string directly.
- **Panics in a list.** `decode_tournaments` skips elements that return
  `Err`. A panicking element ends the whole call in a panic, so the list
  decode can fail as a whole.

## Model

| member | source | states |
|---|---|---|
| Accessors.IntoMap | src/tournament.rs:14-19 | An object yields its entries. Any other value is the error "Expected object" carrying that value. |
| Accessors.Remove | src/tournament.rs:21-23 | A present key is returned. Putting it back into the remaining map restores the original, so only that key is gone. An absent key is the error "Unexpected absent key" with the key as a string, and the map is unchanged. |
| Accessors.RemoveLeavesOthers | src/tournament.rs:21-23 | Removing a key leaves the presence and value of every other key as they were. |
| Decimal.ToDecimal | src/tournament.rs:69-71 | `u64::to_string` output is non-empty and all decimal digits, with no leading zero. |
| Decimal.DecimalRoundTrip | src/tournament.rs:69-71 | Reading back the decimal text of a number gives that number. |
| Decimal.DecimalInjective | src/tournament.rs:69-71 | Different ids have different decimal texts. |
| Enums.RankedByDisplayInjective | src/tournament.rs:34-55 | Two ranking orders display alike exactly when they are the same. |
| Enums.StateDisplayInjective | src/tournament.rs:378-396 | Two tournament states display alike exactly when they are the same. |
| Enums.IdDisplay | src/tournament.rs:63-75 | The text of `Url(s, u)` is one character longer than s and u together. It starts with s, then comes '-', then u, so s and u can be read back when the length of s is known. `Id(n)` prints as decimal digits whose value is n, with no leading zero unless the text is the single digit "0". |
| Enums.UrlDisplayAmbiguous | src/tournament.rs:66-67 | The text alone does not determine a url pair: `Url("a-b", "c")` and `Url("a", "b-c")` both print `a-b-c`. |
| Enums.IdDisplayDistinguishes | src/tournament.rs:63-75 | A numeric id's text belongs to that id alone. No other numeric id and no url pair prints the same. |
| Enums.FromStr | src/tournament.rs:354-368 | `from_str` accepts exactly the seven spellings. An accepted string is the request parameter or the display form of the type it returns. A rejected string is no type's spelling. |
| Enums.TypeRoundTrip | src/tournament.rs:317-368 | `from_str` of `to_get_param(t)` and of the `Display` text of t both give back t. |
| Enums.FromStrNames | src/tournament.rs:317-368 | `from_str(s)` is t exactly when s is one of t's two spellings. |
| FieldTable.SpellingRoundTrip | src/tournament.rs:223-280 | Every key spelling the decoder uses is found again by the lookup from spelling to key. |
| FieldTable.SpellingInjective | src/tournament.rs:223-280 | Two keys have the same JSON spelling exactly when they are the same key. |
| FieldTable.FieldsDistinct | src/tournament.rs:223-280 | The decoder takes 51 keys and no key is taken twice. |
| FieldTable.MandatoryFields | src/tournament.rs:233-269 | Among the taken fields, exactly `created_at` (5th) and `updated_at` (40th) have a coercion that can panic. |
| Decoder.FlagOf | src/tournament.rs:230 | A boolean field is true exactly when its value is the JSON literal `true`. Anything else is false. |
| Decoder.CountOf | src/tournament.rs:237 | An unsigned field is the number's `as_u64` when it has one. A non-zero result comes only from such a number. |
| Decoder.TextOf | src/tournament.rs:236 | A text field is the string itself. A non-empty result comes only from a string. |
| Decoder.PointsOf | src/tournament.rs:252 | A scoring field is the float parse of the string, and 0.0 when the parse fails. A non-string is parsed as "": it gives whatever the parser returns for "", and 0.0 when the parser rejects "". |
| Decoder.KindOf | src/tournament.rs:268 | `tournament_type` is the type a recognised spelling names. Anything else falls back to SingleElimination, never an error. |
| Decoder.StartedAtOf | src/tournament.rs:222-227 | `started_at` is present exactly when the value is a string that parses as RFC 3339, and then it is that parse. |
| Decoder.CreatedAtOf | src/tournament.rs:233 | `created_at` never errs. It succeeds exactly when the parse of the string, or of "" for a non-string, succeeds, and its value is that parse. Otherwise it panics. If the parser rejects "", it succeeds exactly for strings that parse. |
| Decoder.UpdatedAtOf | src/tournament.rs:269 | `updated_at` never errs. It succeeds exactly for a string that parses, with that parse. Otherwise it panics. |
| Decoder.Coerce | src/tournament.rs:223-280 | Field coercions never produce an error. Only the two mandatory date fields can panic. A produced value has the shape its field needs. |
| Decoder.ExtractAll | src/tournament.rs:223-280 | A successful run yields one value of the right shape per field. Every error it can return is an "Unexpected absent key". |
| Decoder.FirstStop | src/tournament.rs:223-280 | Every field before the index is present and its coercion does not panic. The field at the index, if any, is absent or panics. |
| Decoder.DecodeTournament | src/tournament.rs:217-282 | Envelope checks, in order: a non-object is "Expected object"; a missing "tournament" key is "Unexpected absent key"; a non-object under it is "Expected object" with that value. Past them, decoding succeeds exactly when field extraction does. |
| DecoderFacts.ExtractAllLocal | src/tournament.rs:223-280 | Extraction reads only the table's keys. Maps that agree on those keys extract alike. |
| DecoderFacts.ExtractAllSpec | src/tournament.rs:223-280 | The destructive fold agrees with the read-only reference. (1) It succeeds exactly when no field stops it. (2) On success, every value is the coercion of the original entry. (3) An absent first-stopping key is the error naming it. (4) A present first-stopping key means its coercion panicked. |
| DecoderFacts.ExtraKeysIgnored | src/tournament.rs:223-280 | Adding, changing or dropping a key that no field names leaves the extraction unchanged. |
| DecoderFacts.ReplaceTolerant | src/tournament.rs:230-280 | Giving a non-panicking field any other value keeps extraction successful. Only that field's value changes, to the coercion of the new value. |
| DecoderFacts.PanicStops | src/tournament.rs:233-269 | A present field whose coercion panics stops the run at or before it. |
| DecoderFacts.ExtractAllPresent | src/tournament.rs:223-280 | With every key present, extraction never errs. It succeeds exactly when neither of the two panicking fields panics. |
| DecoderFacts.ExtractAllBlocked | src/tournament.rs:223-280 | A present field that panics blocks success. An error can then only name an absent key taken before that field. |
| DecoderFacts.ExtractedCoerced | src/tournament.rs:223-280 | A successful extraction holds, for each row, the coercion of its key's value in the given map. |
| DecoderFacts.DecodeOk | src/tournament.rs:217-282 | A successful decode passed the envelope. Its record is built from the coerced value of each key of the inner object. |
| DecoderFacts.DecodeOutcome | src/tournament.rs:217-282 | For a well-formed envelope, the decode succeeds exactly when no field stops extraction. An absent first-stopping key is the error naming it; a present one is a panic. |
| DecoderFacts.ExtractPresent | src/tournament.rs:223-280 | With every key present, the table's extraction never errs. It succeeds exactly when both `created_at` and `updated_at` coerce. |
| DecoderFacts.DecodeAllKeysPresent | src/tournament.rs:217-282 | An envelope holding every key never decodes to an error. It succeeds exactly when both `created_at` and `updated_at` coerce, and panics otherwise. |
| DecoderFacts.MalformedUpdatedAt | src/tournament.rs:269 | A malformed `updated_at` never decodes. The result is a panic, or the error naming some absent key taken before it. |
| DecoderFacts.MalformedCreatedAt | src/tournament.rs:233 | When the parser rejects "", a `created_at` that is not a parseable string never decodes. The result is a panic, or the error naming an absent key taken before it. |
| DecoderFacts.MissingStartedAt | src/tournament.rs:222-223 | Without a `started_at` key, decoding is the error naming `started_at`, whatever else the record holds. |
| DecoderFacts.OuterKeysIgnored | src/tournament.rs:217-220 | Keys of the envelope other than "tournament" never affect the outcome. |
| DecoderFacts.InnerKeysIgnored | src/tournament.rs:220-280 | Keys of the record object that no field names never affect the outcome. |
| DecoderFacts.DecodeTolerant | src/tournament.rs:230-280 | Giving any field other than `created_at` and `updated_at` (`started_at` included) of a decodable record a value of any shape keeps it decodable. The new record is built from the same values, except that field's, which becomes the coercion of the new value. |
| DecoderFacts.DecodedFields0 | src/tournament.rs:222-235 | In a decoded record, each field below is the coercion of its key's value: `started_at` (optional date), `accept_attachments`, `allow_participant_match_reporting`, `anonymous_voting`, `created_at` (date), `created_by_api`, `credit_capped` (booleans). |
| DecoderFacts.DecodedFields7 | src/tournament.rs:236-242 | Likewise for `description` and `name` (text), `game_id` and `id` (unsigned), and `group_stages_enabled`, `hide_forum`, `hide_seeds` (booleans). |
| DecoderFacts.DecodedFields14 | src/tournament.rs:243-249 | Likewise for `hold_third_place_match`, `notify_users_when_matches_open`, `notify_users_when_the_tournament_ends`, `open_signup` (booleans) and `max_predictions_per_user`, `participants_count`, `prediction_method` (unsigned). |
| DecoderFacts.DecodedFields21 | src/tournament.rs:250-256 | Likewise for `private` (boolean), `progress_meter` (unsigned) and the five `pts_for_*` fields (parsed floats). |
| DecoderFacts.DecodedFields28 | src/tournament.rs:257-263 | Likewise for `quick_advance`, `require_score_agreement`, `sequential_pairings` (booleans) and the four `rr_pts_for_*` fields (parsed floats). |
| DecoderFacts.DecodedFields35 | src/tournament.rs:264-271 | Likewise for `show_rounds` and `teams` (booleans), `swiss_rounds` (unsigned), `tournament_type` (parsed with fallback), `updated_at` (date), and `url` and `description_source` (text). |
| DecoderFacts.DecodedFields42 | src/tournament.rs:272-278 | Likewise for `full_challonge_url`, `live_image_url` and `game_name` (text), and `review_before_finalizing`, `accepting_predictions`, `participants_locked`, `participants_swappable` (booleans). |
| DecoderFacts.DecodedFields49 | src/tournament.rs:279-280 | Likewise for `team_convertable` and `group_stages_were_started` (booleans). |
| Batch.Kept | src/tournament.rs:284-294 | The kept records are never more than the elements. |
| Batch.KeptAppend | src/tournament.rs:284-294 | Decoding a concatenation keeps the records of each part, in order. |
| Batch.KeptMembers | src/tournament.rs:284-294 | A record is in the output exactly when some element decodes to it. |
| Batch.KeptAll | src/tournament.rs:284-294 | When every element decodes, the output matches the elements one for one, in order. |
| Batch.SkipsMiddle | src/tournament.rs:284-294 | Of three elements, a failing middle one is skipped and the other two come out in order. |
| Batch.SkipsFailure | src/tournament.rs:284-294 | Two decodable envelopes around a value that is not a well-formed envelope give exactly their two records, in order. |
| Batch.DecodeArray | src/tournament.rs:284-294 | The loop: a non-array gives nothing. For an array, it panics exactly when some element panics. Otherwise it gives the records of the elements that decode, in order. It never returns an error. |
| Batch.DecodeTournaments | src/tournament.rs:284-294 | `decode_tournaments` with `Tournament::decode` as the element decoder: the loop's contract. |
| Batch.IndexDecode | src/tournament.rs:296-307 | `Index::decode` wraps the same list. Empty for a non-array; a panic exactly when an element panics; never an error. |
| Sample.SampleKind | src/tournament.rs:459 | The sample's `"single elimination"` is read as SingleElimination. |
| Sample.SampleFields | src/tournament.rs:404-532 | An envelope carrying every key the decoder takes, with the test's `created_at` and `updated_at` strings accepted by the date parser, decodes, so the test never reaches its failing branch. A record carrying the unit test's sample values for `id`, `game_id`, `tournament_type`, `pts_for_bye`, `started_at`, `allow_participant_match_reporting`, `name`, `show_rounds` and `teams` holds what the test asserts for them. The float and date fields hold whatever the parsers return for the sample's strings. |

## Left out

- `TournamentCreate` and the other plain record declarations carry data only. They have no behaviour to model.
- The `fmt::Formatter` error plumbing of every `Display` impl is left out. Each display is modelled as the string it writes.
- The RFC 3339 parser, the `f64` parser and `as_u64` are parameters (`Env`), not modelled. Floats are bit patterns with no arithmetic.
- Text-level JSON parsing by serde is not modelled. The decoder starts from the parsed value tree.
- `ranked_by` has a `Display` impl but is not a field of the decoded record. Only its text form is modelled.
- The `FieldValue` readers in `Assemble` fall back to defaults on a value of the wrong shape. `Decoder.ExtractAll` proves that this case never happens for a decoded record.
- Sample.SampleFields: the in-file unit test decodes one concrete payload with 63 keys. These are the 51 the decoder takes plus 12 it never reads: `category`, `check_in_duration`, `completed_at`, `predictions_opened_at`, `ranked_by`, `signup_cap`, `start_at`, `started_checking_in_at`, `state`, `tie_breaks`, `subdomain` and `sign_up_url`. The lemma proves that such a payload decodes, given that the date parser accepts its two stamp strings, and covers 9 of the asserted fields; it does not build the whole payload and does not state the other asserted values. The unread keys are covered in general by `DecoderFacts.InnerKeysIgnored`, and every field's coercion by the `DecoderFacts.DecodedFields` lemmas.
- Batch.DecodeTournaments: a Rust panic unwinds out of `decode_tournaments`, which returns a plain `Vec`. Here the panic is the `Panic` case of the result.
