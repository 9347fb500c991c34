/**
 * The JSON values the client reads (serde_json's `Value`), the lenient
 * accessors it uses on them (`v["key"]`, `as_str`, `as_u64`) and the decoding
 * of a JSON array into a sequence of items (`Vec<T>`), given a decoder for
 * one item.
 */
module Json {
  import opened Wrappers
  import Numbers

  /** Floating-point numbers are kept as their literal text: the client never reads one. */
  datatype Value =
    | Null
    | Bool(b: bool)
    | Int(i: int)
    | Float(literal: string)
    | Str(s: string)
    | Array(items: seq<Value>)
    | Object(fields: map<string, Value>)

  /** `v[key]`: the member of an object, and `Null` for a missing member or a non-object. */
  function Index(v: Value, key: string): (r: Value)
    ensures v.Object? && key in v.fields ==> r == v.fields[key]
    ensures !r.Null? ==> v.Object? && key in v.fields
  {
    if v.Object? && key in v.fields then v.fields[key] else Null
  }

  /** `as_str`: the text of a string value, nothing for any other value. */
  function AsStr(v: Value): (r: Option<string>)
    ensures r.Some? <==> v.Str?
    ensures r.Some? ==> v == Str(r.value)
  {
    if v.Str? then Some(v.s) else None
  }

  /** `as_u64`: an integer that fits in 64 unsigned bits, nothing otherwise (floats included). */
  function AsU64(v: Value): (r: Option<nat>)
    ensures r.Some? <==> v.Int? && 0 <= v.i < Numbers.U64_LIMIT
    ensures r.Some? ==> v == Int(r.value)
  {
    if v.Int? && 0 <= v.i < Numbers.U64_LIMIT then Some(v.i) else None
  }

  /**
   * Decodes every item in order; the first item that fails to decode makes
   * the whole sequence fail with that item's error.
   */
  function DecodeAll<T>(xs: seq<Value>, decode: Value -> Result<T, string>): (r: Result<seq<T>, string>)
    ensures r.Ok? <==> forall i :: 0 <= i < |xs| ==> decode(xs[i]).Ok?
    ensures r.Ok? ==> |r.value| == |xs| && forall i :: 0 <= i < |xs| ==> decode(xs[i]) == Ok(r.value[i])
    ensures r.Err? ==> exists i :: 0 <= i < |xs| && decode(xs[i]) == Err(r.error)
    decreases |xs|
  {
    if |xs| == 0 then Ok([])
    else
      match decode(xs[0])
      case Err(e) => Err(e)
      case Ok(x) =>
        match DecodeAll(xs[1..], decode)
        case Err(e) =>
          assert forall i :: 1 <= i < |xs| ==> xs[i] == xs[1..][i - 1];
          Err(e)
        case Ok(rest) =>
          assert forall i :: 1 <= i < |xs| ==> xs[i] == xs[1..][i - 1];
          Ok([x] + rest)
  }

  /** `serde_json::from_value::<Vec<T>>`: only an array decodes, item by item. */
  function DecodeArray<T>(v: Value, decode: Value -> Result<T, string>): (r: Result<seq<T>, string>)
    ensures !v.Array? ==> r.Err?
    ensures v.Array? ==> r == DecodeAll(v.items, decode)
  {
    if v.Array? then DecodeAll(v.items, decode) else Err("invalid type: expected a sequence")
  }
}
