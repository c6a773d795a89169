/** Optional values, as Rust's `Option`. */
module Wrappers {

  datatype Option<+T> = None | Some(value: T) {

    /** Rust's `unwrap_or`: the carried value, or `default` when there is none. */
    function GetOr(default: T): T {
      match this
      case Some(v) => v
      case None => default
    }
  }
}

/**
  The already-deserialized value tree the decoder reads (serde_json's `Value`),
  the scalar carriers it needs, and the decoder's single error kind.
 */
module Json {
  import opened Wrappers

  /** Rust's `u64`. */
  type U64 = n: int | 0 <= n < 0x1_0000_0000_0000_0000

  /** An IEEE-754 double, kept as its bit pattern; no arithmetic is modelled. */
  datatype F64 = F64(bits: bv64)

  /** `0.0f64`: the bit pattern of positive zero. */
  const Zero: F64 := F64(0)

  /** A negative integer: serde_json stores a non-negative one as `PosInt`. */
  type Negative = i: int | i < 0 witness -1

  /** The three number kinds of serde_json's `Value`. */
  datatype Number = PosInt(u: U64) | NegInt(i: Negative) | Float(f: F64)

  datatype Json =
    | Null
    | Bool(b: bool)
    | Num(n: Number)
    | Str(s: string)
    | Arr(items: seq<Json>)
    | Obj(fields: map<string, Json>)

  /** serde_json's `Value::as_boolean`. */
  function AsBoolean(v: Json): (r: Option<bool>)
    ensures r.Some? <==> v.Bool?
    ensures r.Some? ==> v == Bool(r.value)
  {
    if v.Bool? then Some(v.b) else None
  }

  /** serde_json's `Value::as_string`. */
  function AsString(v: Json): (r: Option<string>)
    ensures r.Some? <==> v.Str?
    ensures r.Some? ==> v == Str(r.value)
  {
    if v.Str? then Some(v.s) else None
  }

  /** The decoder's error: a short reason and the value that caused it. */
  datatype Error = Decode(reason: string, offending: Json)

  const ExpectedObject: string := "Expected object"
  const UnexpectedAbsentKey: string := "Unexpected absent key"

  /**
    Rust's `Result<T, Error>`, extended with `Panic` for the unwinding of an
    `unwrap()` on a missing value: a panic is not an `Err` the caller can match.
   */
  datatype Outcome<+T> = Ok(value: T) | Err(error: Error) | Panic
}
