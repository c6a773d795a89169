/**
  `decode_tournaments` and `Index::decode`: best-effort decoding of an array of
  tournament envelopes. Elements that fail with an `Err` are skipped; an
  element whose decoding panics takes the whole batch down with it, because a
  panic is not an `Err` the loop can skip.

  The loop is stated once for any element decoder `dec`; the tournament
  instances pass `Tournament::decode` for it.
 */
module Batch {
  import opened Json
  import opened Collaborators
  import opened Decoder

  /** The values of the elements that decode, in array order. */
  function Kept<T>(dec: Json -> Outcome<T>, items: seq<Json>): (r: seq<T>)
    ensures |r| <= |items|
    decreases |items|
  {
    if |items| == 0 then []
    else
      match dec(items[0])
      case Ok(t) => [t] + Kept(dec, items[1..])
      case _ => Kept(dec, items[1..])
  }

  /** Some element's decoding panics. */
  predicate AnyPanics<T>(dec: Json -> Outcome<T>, items: seq<Json>) {
    exists i :: 0 <= i < |items| && dec(items[i]).Panic?
  }

  /** Decoding a concatenation keeps the values of each part, in order. */
  lemma {:induction false} KeptAppend<T>(dec: Json -> Outcome<T>, a: seq<Json>, b: seq<Json>)
    ensures Kept(dec, a + b) == Kept(dec, a) + Kept(dec, b)
    decreases |a|
  {
    if |a| == 0 {
      assert a + b == b;
    } else {
      assert (a + b)[0] == a[0];
      assert (a + b)[1..] == a[1..] + b;
      KeptAppend(dec, a[1..], b);
      match dec(a[0])
      case Ok(t) =>
        assert Kept(dec, a + b) == [t] + Kept(dec, a[1..] + b);
      case _ =>
    }
  }

  /** A value is kept exactly when some element decodes to it. */
  lemma {:induction false} KeptMembers<T>(dec: Json -> Outcome<T>, items: seq<Json>, t: T)
    ensures t in Kept(dec, items) <==> exists i :: 0 <= i < |items| && dec(items[i]) == Ok(t)
    decreases |items|
  {
    if |items| > 0 {
      KeptMembers(dec, items[1..], t);
      if exists i :: 0 <= i < |items| && dec(items[i]) == Ok(t) {
        var i :| 0 <= i < |items| && dec(items[i]) == Ok(t);
        if i > 0 {
          assert items[1..][i - 1] == items[i];
        }
      }
      if exists i :: 0 <= i < |items[1..]| && dec(items[1..][i]) == Ok(t) {
        var i :| 0 <= i < |items[1..]| && dec(items[1..][i]) == Ok(t);
        assert items[i + 1] == items[1..][i];
      }
    }
  }

  /** Nothing is dropped when every element decodes: the values match the elements one for one. */
  lemma {:induction false} KeptAll<T>(dec: Json -> Outcome<T>, items: seq<Json>)
    requires forall i :: 0 <= i < |items| ==> dec(items[i]).Ok?
    ensures |Kept(dec, items)| == |items|
    ensures forall i :: 0 <= i < |items| ==> Kept(dec, items)[i] == dec(items[i]).value
    decreases |items|
  {
    if |items| > 0 {
      assert forall i :: 0 <= i < |items[1..]| ==> items[1..][i] == items[i + 1];
      KeptAll(dec, items[1..]);
    }
  }

  /**
    The loop of `decode_tournaments`: a value that is not an array gives
    nothing; an array gives the values of the elements that decode, in order,
    unless some element panics, which ends the whole call in a panic.
   */
  method DecodeArray<T>(dec: Json -> Outcome<T>, v: Json) returns (r: Outcome<seq<T>>)
    ensures !r.Err?
    ensures !v.Arr? ==> r == Ok([])
    ensures v.Arr? ==> (r.Panic? <==> AnyPanics(dec, v.items))
    ensures v.Arr? && !AnyPanics(dec, v.items) ==> r == Ok(Kept(dec, v.items))
  {
    if !v.Arr? {
      return Ok([]);
    }
    var items := v.items;
    var ts: seq<T> := [];
    var i := 0;
    while i < |items|
      invariant 0 <= i <= |items|
      invariant ts == Kept(dec, items[..i])
      invariant forall j :: 0 <= j < i ==> !dec(items[j]).Panic?
    {
      KeptAppend(dec, items[..i], [items[i]]);
      assert items[..i + 1] == items[..i] + [items[i]];
      match dec(items[i]) {
        case Ok(t) =>
          ts := ts + [t];
        case Err(_) =>
        case Panic =>
          return Panic;
      }
      i := i + 1;
    }
    assert items[..i] == items;
    return Ok(ts);
  }

  /** `Tournament::decode` under `env`, as an element decoder. */
  function Decoding(env: Env): (dec: Json -> Outcome<Tournament>)
    ensures forall x :: dec(x) == DecodeTournament(env, x)
  {
    x => DecodeTournament(env, x)
  }

  /**
    `decode_tournaments`: the records of the array elements that decode, in
    order; a non-array gives none, and a panic in any element is the call's.
   */
  method DecodeTournaments(env: Env, v: Json) returns (r: Outcome<seq<Tournament>>)
    ensures !r.Err?
    ensures !v.Arr? ==> r == Ok([])
    ensures v.Arr? ==> (r.Panic? <==> AnyPanics(Decoding(env), v.items))
    ensures v.Arr? && !AnyPanics(Decoding(env), v.items) ==> r == Ok(Kept(Decoding(env), v.items))
  {
    r := DecodeArray(Decoding(env), v);
  }

  /** The account's list of tournaments. */
  datatype Index = Index(tournaments: seq<Tournament>)

  /** `Index::decode`: the list `decode_tournaments` produces, wrapped. */
  method IndexDecode(env: Env, v: Json) returns (r: Outcome<Index>)
    ensures !r.Err?
    ensures !v.Arr? ==> r == Ok(Index([]))
    ensures v.Arr? ==> (r.Panic? <==> AnyPanics(Decoding(env), v.items))
    ensures v.Arr? && !AnyPanics(Decoding(env), v.items) ==> r == Ok(Index(Kept(Decoding(env), v.items)))
  {
    var ts := DecodeTournaments(env, v);
    match ts
    case Ok(list) =>
      r := Ok(Index(list));
    case Err(e) =>
      r := Err(e);
    case Panic =>
      r := Panic;
  }

  /**
    A record, a value that is not a well-formed envelope (not an object, or
    without an object under "tournament") and another record: the failure in
    between is skipped and the two records come out in order.
   */
  lemma SkipsFailure(env: Env, a: Json, bad: Json, c: Json)
    requires DecodeTournament(env, a).Ok? && DecodeTournament(env, c).Ok?
    requires !Enveloped(bad)
    ensures Kept(Decoding(env), [a, bad, c]) == [DecodeTournament(env, a).value, DecodeTournament(env, c).value]
  {
    SkipsMiddle(Decoding(env), a, bad, c);
  }

  /** The failure in the middle of three elements is skipped. */
  lemma SkipsMiddle<T>(dec: Json -> Outcome<T>, a: Json, bad: Json, c: Json)
    requires dec(a).Ok? && dec(bad).Err? && dec(c).Ok?
    ensures Kept(dec, [a, bad, c]) == [dec(a).value, dec(c).value]
  {
    assert [c][1..] == [];
    assert Kept(dec, [c]) == [dec(c).value];
    assert [bad, c][1..] == [c];
    assert Kept(dec, [bad, c]) == [dec(c).value];
    assert [a, bad, c][1..] == [bad, c];
  }
}
