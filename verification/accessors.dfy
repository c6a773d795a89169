/**
  Code the decoder calls but that is not part of this model: chrono's RFC 3339
  parser, Rust's `str::parse::<f64>` and serde_json's `as_u64` on a number.
  They are given to the decoder as an environment of total functions.
 */
module Collaborators {
  import opened Wrappers
  import opened Json

  /** A `DateTime<FixedOffset>`: an instant and the offset it was written with. */
  datatype DateTime = DateTime(unixSeconds: int, nanos: nat, offsetSeconds: int)

  datatype Env = Env(
    parseRfc3339: string -> Option<DateTime>,
    parseF64: string -> Option<F64>,
    numberAsU64: Number -> Option<U64>)

  /** serde_json's `Value::as_u64`: only a number can yield one. */
  function AsU64(env: Env, v: Json): (r: Option<U64>)
    ensures r.Some? ==> v.Num? && env.numberAsU64(v.n) == r
  {
    match v
    case Num(n) => env.numberAsU64(n)
    case _ => None
  }
}

/** `into_map` and `remove`: the only two ways the decoder reads a payload. */
module Accessors {
  import opened Json

  /** `into_map`: the entries of an object, or "Expected object" with the value. */
  function IntoMap(v: Json): (r: Outcome<map<string, Json>>)
    ensures r.Ok? <==> v.Obj?
    ensures r.Ok? ==> Obj(r.value) == v
    ensures !r.Ok? ==> r == Err(Decode(ExpectedObject, v))
  {
    match v
    case Obj(m) => Ok(m)
    case _ => Err(Decode(ExpectedObject, v))
  }

  /** What `remove` returns, together with the map it leaves behind. */
  datatype Removal = Removal(result: Outcome<Json>, rest: map<string, Json>)

  /**
    `remove`: takes `key` out of the map. Putting the value back restores the
    map, so exactly `key` is gone and every other entry is as it was. An absent
    key is an error naming the key and leaves the map as it was.
   */
  function Remove(m: map<string, Json>, key: string): (r: Removal)
    ensures r.result.Ok? <==> key in m
    ensures r.result.Ok? ==> key !in r.rest && r.rest[key := r.result.value] == m
    ensures !r.result.Ok? ==> r.result == Err(Decode(UnexpectedAbsentKey, Str(key))) && r.rest == m
  {
    if key in m then
      var rest := m - {key};
      assert rest[key := m[key]] == m;
      Removal(Ok(m[key]), rest)
    else
      Removal(Err(Decode(UnexpectedAbsentKey, Str(key))), m)
  }

  /** The reinsertion law of `Remove`, read entrywise. */
  lemma RemoveLeavesOthers(m: map<string, Json>, key: string, other: string)
    requires key in m && other != key
    ensures other in Remove(m, key).rest <==> other in m
    ensures other in m ==> Remove(m, key).rest[other] == m[other]
  {
    var r := Remove(m, key);
    assert r.rest[key := r.result.value] == m;
  }
}
