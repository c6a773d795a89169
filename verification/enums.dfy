/** Decimal text of a natural number, as Rust's `u64::to_string` writes it. */
module Decimal {

  predicate IsDigit(c: char) {
    '0' <= c <= '9'
  }

  function DigitChar(d: nat): (c: char)
    requires d < 10
    ensures IsDigit(c) && c as int - '0' as int == d
  {
    ('0' as int + d) as char
  }

  /** The decimal digits of `n`, most significant first, without leading zeros. */
  function ToDecimal(n: nat): (s: string)
    ensures |s| > 0
    ensures forall i :: 0 <= i < |s| ==> IsDigit(s[i])
    ensures |s| > 1 ==> s[0] != '0'
    decreases n
  {
    if n < 10 then [DigitChar(n)] else ToDecimal(n / 10) + [DigitChar(n % 10)]
  }

  function DigitValue(c: char): nat
    requires IsDigit(c)
  {
    c as int - '0' as int
  }

  /** The value of a string of decimal digits. */
  function DecimalValue(s: string): nat
    requires forall i :: 0 <= i < |s| ==> IsDigit(s[i])
  {
    if |s| == 0 then 0
    else DecimalValue(s[..|s| - 1]) * 10 + DigitValue(s[|s| - 1])
  }

  /** Reading back the decimal text of `n` gives `n`. */
  lemma {:induction false} DecimalRoundTrip(n: nat)
    ensures DecimalValue(ToDecimal(n)) == n
    decreases n
  {
    if n >= 10 {
      var prefix := ToDecimal(n / 10);
      var s := prefix + [DigitChar(n % 10)];
      assert s[..|s| - 1] == prefix;
      DecimalRoundTrip(n / 10);
    }
  }

  /** Distinct numbers have distinct decimal texts. */
  lemma DecimalInjective(a: nat, b: nat)
    requires ToDecimal(a) == ToDecimal(b)
    ensures a == b
  {
    DecimalRoundTrip(a);
    DecimalRoundTrip(b);
  }
}

/**
  The closed enumerations of tournament configuration and their text forms:
  the `Display` impls and `TournamentType`'s request parameter and parser.
 */
module Enums {
  import opened Wrappers
  import opened Json
  import Decimal

  /** Ranking order. It has a display form only; the decoder never reads it. */
  datatype RankedBy = MatchWins | GameWins | PointsScored | PointsDifference | Custom

  function RankedByDisplay(r: RankedBy): string {
    match r
    case MatchWins => "match wins"
    case GameWins => "game wins"
    case PointsScored => "points scored"
    case PointsDifference => "points difference"
    case Custom => "custom"
  }

  /** The display form tells every ranking order apart. */
  lemma RankedByDisplayInjective(a: RankedBy, b: RankedBy)
    ensures RankedByDisplay(a) == RankedByDisplay(b) <==> a == b
  {
  }

  /** Tournament state, used only as an outbound filter value. */
  datatype TournamentState = All | Pending | InProgress | Ended

  function StateDisplay(s: TournamentState): string {
    match s
    case All => "all"
    case Pending => "pending"
    case InProgress => "in_progress"
    case Ended => "ended"
  }

  /** The display form tells every state apart. */
  lemma StateDisplayInjective(a: TournamentState, b: TournamentState)
    ensures StateDisplay(a) == StateDisplay(b) <==> a == b
  {
  }

  /** A tournament is addressed by number or by (subdomain, url slug). */
  datatype TournamentId = Url(subdomain: string, url: string) | Id(id: U64)

  /**
    `Url(s, u)` prints as `s-u`: its first `|s|` characters are `s`, then '-',
    then `u`. `Id(n)` prints as the decimal digits of `n`, which read back as
    `n`. A numeric id's text never contains '-', so it is no url pair's.
   */
  function IdDisplay(t: TournamentId): (r: string)
    ensures t.Id? ==> |r| > 0 && (forall i :: 0 <= i < |r| ==> Decimal.IsDigit(r[i]))
    ensures t.Id? ==> Decimal.DecimalValue(r) == t.id
    ensures t.Id? && |r| > 1 ==> r[0] != '0'
    ensures t.Url? ==> |r| == |t.subdomain| + 1 + |t.url| && r[|t.subdomain|] == '-'
    ensures t.Url? ==> r[..|t.subdomain|] == t.subdomain && r[|t.subdomain| + 1..] == t.url
  {
    match t
    case Url(subdomain, url) => subdomain + "-" + url
    case Id(id) =>
      Decimal.DecimalRoundTrip(id);
      Decimal.ToDecimal(id)
  }

  /** Two ids with the same text are the same id, and a numeric id never prints like a url pair. */
  lemma IdDisplayDistinguishes(a: TournamentId, b: TournamentId)
    requires a.Id? && IdDisplay(a) == IdDisplay(b)
    ensures a == b
  {
  }

  /**
    A url pair's text does not determine the pair: the '-' between the parts
    can also occur inside them.
   */
  lemma UrlDisplayAmbiguous()
    ensures Url("a-b", "c") != Url("a", "b-c")
    ensures IdDisplay(Url("a-b", "c")) == IdDisplay(Url("a", "b-c"))
  {
    assert "a-b" + "-" + "c" == "a" + "-" + "b-c";
  }

  /** The four bracket formats. */
  datatype TournamentType = SingleElimination | DoubleElimination | RoundRobin | Swiss

  /** `to_get_param`: the spelling used in outbound requests. */
  function ToGetParam(t: TournamentType): string {
    match t
    case SingleElimination => "single_elimination"
    case DoubleElimination => "double_elimination"
    case RoundRobin => "round_robin"
    case Swiss => "swiss"
  }

  /** `Display`: the human-readable spelling. */
  function TypeDisplay(t: TournamentType): string {
    match t
    case SingleElimination => "single elimination"
    case DoubleElimination => "double elimination"
    case RoundRobin => "round robin"
    case Swiss => "swiss"
  }

  /** Every spelling `from_str` accepts. */
  const Spellings: set<string> := {
    "single_elimination", "single elimination",
    "double_elimination", "double elimination",
    "round_robin", "round robin",
    "swiss"
  }

  /**
    `from_str` (`None` stands for its `Err(())`): a string is accepted exactly
    when it is the request parameter or the display form of some type, and then
    it names that type.
   */
  function FromStr(s: string): (r: Option<TournamentType>)
    ensures r.Some? <==> s in Spellings
    ensures r.Some? ==> s == ToGetParam(r.value) || s == TypeDisplay(r.value)
    ensures r.None? ==> forall t :: s != ToGetParam(t) && s != TypeDisplay(t)
  {
    match s
    case "single_elimination" => Some(SingleElimination)
    case "single elimination" => Some(SingleElimination)
    case "double_elimination" => Some(DoubleElimination)
    case "double elimination" => Some(DoubleElimination)
    case "round_robin" => Some(RoundRobin)
    case "round robin" => Some(RoundRobin)
    case "swiss" => Some(Swiss)
    case _ => None
  }

  /** Both spellings of every type parse back to it. */
  lemma TypeRoundTrip(t: TournamentType)
    ensures FromStr(ToGetParam(t)) == Some(t)
    ensures FromStr(TypeDisplay(t)) == Some(t)
  {
  }

  /** The parser's full characterisation: `s` names `t` iff it is one of `t`'s two spellings. */
  lemma FromStrNames(s: string, t: TournamentType)
    ensures FromStr(s) == Some(t) <==> s == ToGetParam(t) || s == TypeDisplay(t)
  {
    if s == ToGetParam(t) || s == TypeDisplay(t) {
      TypeRoundTrip(t);
    }
  }
}
