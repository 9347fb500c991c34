/**
 * The typed list envelopes (`AgentList`, `StoreList`, ... and the cursor
 * lists `AgentExecutorJobList`, `ExecutionList`) and the four-string item
 * records, decoded from JSON the way serde's derived `Deserialize` does: a
 * struct is read from an object by member name (unknown members ignored) or
 * from an array holding exactly one element per field; an `Option<String>`
 * member may be absent or null; every other member is required and must have
 * its type. All the page envelopes share one shape, as do all the cursor
 * envelopes.
 */
module Envelope {
  import opened Wrappers
  import opened Numbers
  import opened Json

  /** The page envelope: `next`, `previous`, `results`, `total_count`, `current_page`. */
  datatype PageList<T> = PageList(
    next: Option<string>,
    previous: Option<string>,
    results: seq<T>,
    totalCount: u32,
    currentPage: u32)

  /** The cursor envelope: `next`, `previous`, `results`. */
  datatype CursorList<T> = CursorList(next: Option<string>, previous: Option<string>, results: seq<T>)

  const PAGE_FIELDS: seq<string> := ["next", "previous", "results", "total_count", "current_page"]
  const CURSOR_FIELDS: seq<string> := ["next", "previous", "results"]

  /** The member for each field name, in declaration order; absent members are `None`. */
  function Members(v: Value, names: seq<string>): (r: Result<seq<Option<Value>>, string>)
    ensures r.Ok? ==> |r.value| == |names|
    ensures v.Object? ==> r.Ok? && forall i :: 0 <= i < |names| ==>
      r.value[i] == (if names[i] in v.fields then Some(v.fields[names[i]]) else None)
    ensures v.Array? ==> (r.Ok? <==> |v.items| == |names|)
    ensures v.Array? && r.Ok? ==> forall i :: 0 <= i < |names| ==> r.value[i] == Some(v.items[i])
    ensures !v.Object? && !v.Array? ==> r.Err?
  {
    match v
    case Object(fields) =>
      Ok(seq(|names|, i requires 0 <= i < |names| => if names[i] in fields then Some(fields[names[i]]) else None))
    case Array(items) =>
      if |items| == |names| then Ok(seq(|items|, i requires 0 <= i < |items| => Some(items[i])))
      else Err("invalid length")
    case _ => Err("invalid type: expected a struct")
  }

  /** An `Option<String>` member: absent or null is `None`, a string is `Some`, anything else fails. */
  function OptionalString(m: Option<Value>): (r: Result<Option<string>, string>)
    ensures r.Ok? <==> m.None? || m.value.Null? || m.value.Str?
    ensures r.Ok? ==> r.value == (if m.Some? && m.value.Str? then Some(m.value.s) else None)
  {
    match m
    case None => Ok(None)
    case Some(Null) => Ok(None)
    case Some(Str(s)) => Ok(Some(s))
    case Some(_) => Err("invalid type: expected a string")
  }

  /** A `u32` member: present, an integer, and within 32 unsigned bits. */
  function RequiredU32(m: Option<Value>, name: string): (r: Result<u32, string>)
    ensures r.Ok? <==> m.Some? && m.value.Int? && 0 <= m.value.i < U32_LIMIT
    ensures r.Ok? ==> r.value == m.value.i
  {
    match m
    case None => Err("missing field `" + name + "`")
    case Some(Int(i)) => if 0 <= i < U32_LIMIT then Ok(i) else Err("invalid value: expected u32")
    case Some(_) => Err("invalid type: expected u32")
  }

  /** A `Vec<T>` member: present and an array whose items all decode. */
  function RequiredSeq<T>(m: Option<Value>, name: string, decode: Value -> Result<T, string>)
    : (r: Result<seq<T>, string>)
    ensures r.Ok? ==> m.Some? && r == DecodeArray(m.value, decode)
    ensures m.Some? ==> r == DecodeArray(m.value, decode)
  {
    match m
    case None => Err("missing field `" + name + "`")
    case Some(v) => DecodeArray(v, decode)
  }

  /** A `String` member: present and a string. */
  function RequiredString(m: Option<Value>, name: string): (r: Result<string, string>)
    ensures r.Ok? <==> m.Some? && m.value.Str?
    ensures r.Ok? ==> r.value == m.value.s
  {
    match m
    case Some(Str(s)) => Ok(s)
    case None => Err("missing field `" + name + "`")
    case Some(_) => Err("invalid type: expected a string")
  }

  function RequiredStrings(ms: seq<Option<Value>>, names: seq<string>): (r: Result<seq<string>, string>)
    requires |ms| == |names|
    ensures r.Ok? <==> forall i :: 0 <= i < |ms| ==> ms[i].Some? && ms[i].value.Str?
    ensures r.Ok? ==> |r.value| == |ms| && forall i :: 0 <= i < |ms| ==> r.value[i] == ms[i].value.s
    decreases |ms|
  {
    if |ms| == 0 then Ok([])
    else
      match RequiredString(ms[0], names[0])
      case Err(e) => Err(e)
      case Ok(s) =>
        assert forall i :: 1 <= i < |ms| ==> ms[i] == ms[1..][i - 1];
        match RequiredStrings(ms[1..], names[1..])
        case Err(e) => Err(e)
        case Ok(rest) => Ok([s] + rest)
  }

  /**
   * The fields of a record whose every field is a `String`: from an object,
   * exactly when each named member is present and a string.
   */
  function StringMembers(v: Value, names: seq<string>): (r: Result<seq<string>, string>)
    ensures r.Ok? ==> |r.value| == |names|
    ensures v.Object? ==>
      (r.Ok? <==> forall i :: 0 <= i < |names| ==> names[i] in v.fields && v.fields[names[i]].Str?)
    ensures v.Object? && r.Ok? ==> forall i :: 0 <= i < |names| ==> r.value[i] == v.fields[names[i]].s
  {
    var ms :- Members(v, names);
    RequiredStrings(ms, names)
  }

  predicate Distinct(names: seq<string>) {
    forall i, j :: 0 <= i < j < |names| ==> names[i] != names[j]
  }

  /** The members a derived `Serialize` writes for a record of strings, one per field in order. */
  function StringFields(names: seq<string>, values: seq<string>): map<string, Value>
    requires |names| == |values|
    decreases |names|
  {
    if |names| == 0 then map[]
    else
      var n := |names| - 1;
      StringFields(names[..n], values[..n])[names[n] := Str(values[n])]
  }

  function StringObject(names: seq<string>, values: seq<string>): Value
    requires |names| == |values|
  {
    Object(StringFields(names, values))
  }

  lemma {:induction false} StringFieldsLookup(names: seq<string>, values: seq<string>, i: nat)
    requires |names| == |values| && Distinct(names) && i < |names|
    ensures names[i] in StringFields(names, values)
    ensures StringFields(names, values)[names[i]] == Str(values[i])
    decreases |names|
  {
    var n := |names| - 1;
    if i < n {
      assert names[..n][i] == names[i] && values[..n][i] == values[i];
      StringFieldsLookup(names[..n], values[..n], i);
    }
  }

  /** A record of strings written with distinct member names reads back as the same field values. */
  lemma StringObjectRoundTrip(names: seq<string>, values: seq<string>)
    requires |names| == |values| && Distinct(names)
    ensures StringMembers(StringObject(names, values), names) == Ok(values)
  {
    forall i | 0 <= i < |names|
      ensures names[i] in StringFields(names, values) && StringFields(names, values)[names[i]] == Str(values[i])
    {
      StringFieldsLookup(names, values, i);
    }
    var r := StringMembers(StringObject(names, values), names);
    assert r.Ok?;
    assert r.value == values;
  }

  /** What an `Option<String>` member admits when present. */
  predicate NullOrStr(x: Value) {
    x.Null? || x.Str?
  }

  /** What a `u32` member admits. */
  predicate IsU32(x: Value) {
    x.Int? && 0 <= x.i < U32_LIMIT
  }

  /**
   * A page envelope with items decoded by `decode`: from an object by member
   * name, or from an array of exactly five items read by position.
   */
  function DecodePageList<T>(v: Value, decode: Value -> Result<T, string>): (r: Result<PageList<T>, string>)
    ensures v.Object? ==> (r.Ok? <==>
      && ("next" !in v.fields || NullOrStr(v.fields["next"]))
      && ("previous" !in v.fields || NullOrStr(v.fields["previous"]))
      && "results" in v.fields && DecodeArray(v.fields["results"], decode).Ok?
      && "total_count" in v.fields && IsU32(v.fields["total_count"])
      && "current_page" in v.fields && IsU32(v.fields["current_page"]))
    ensures v.Object? && r.Ok? ==>
      && r.value.next == AsStr(Index(v, "next"))
      && r.value.previous == AsStr(Index(v, "previous"))
      && DecodeArray(v.fields["results"], decode) == Ok(r.value.results)
      && v.fields["total_count"] == Int(r.value.totalCount)
      && v.fields["current_page"] == Int(r.value.currentPage)
    ensures v.Array? ==> (r.Ok? <==>
      && |v.items| == 5
      && NullOrStr(v.items[0]) && NullOrStr(v.items[1])
      && DecodeArray(v.items[2], decode).Ok?
      && IsU32(v.items[3]) && IsU32(v.items[4]))
    ensures v.Array? && r.Ok? ==>
      && r.value.next == AsStr(v.items[0])
      && r.value.previous == AsStr(v.items[1])
      && DecodeArray(v.items[2], decode) == Ok(r.value.results)
      && v.items[3] == Int(r.value.totalCount)
      && v.items[4] == Int(r.value.currentPage)
    ensures !v.Object? && !v.Array? ==> r.Err?
  {
    var ms :- Members(v, PAGE_FIELDS);
    var next :- OptionalString(ms[0]);
    var previous :- OptionalString(ms[1]);
    var results :- RequiredSeq(ms[2], "results", decode);
    var totalCount :- RequiredU32(ms[3], "total_count");
    var currentPage :- RequiredU32(ms[4], "current_page");
    Ok(PageList(next, previous, results, totalCount, currentPage))
  }

  /**
   * A cursor envelope with items decoded by `decode`: from an object by member
   * name, or from an array of exactly three items read by position.
   */
  function DecodeCursorList<T>(v: Value, decode: Value -> Result<T, string>): (r: Result<CursorList<T>, string>)
    ensures v.Object? ==> (r.Ok? <==>
      && ("next" !in v.fields || NullOrStr(v.fields["next"]))
      && ("previous" !in v.fields || NullOrStr(v.fields["previous"]))
      && "results" in v.fields && DecodeArray(v.fields["results"], decode).Ok?)
    ensures v.Object? && r.Ok? ==>
      && r.value.next == AsStr(Index(v, "next"))
      && r.value.previous == AsStr(Index(v, "previous"))
      && DecodeArray(v.fields["results"], decode) == Ok(r.value.results)
    ensures v.Array? ==> (r.Ok? <==>
      && |v.items| == 3
      && NullOrStr(v.items[0]) && NullOrStr(v.items[1])
      && DecodeArray(v.items[2], decode).Ok?)
    ensures v.Array? && r.Ok? ==>
      && r.value.next == AsStr(v.items[0])
      && r.value.previous == AsStr(v.items[1])
      && DecodeArray(v.items[2], decode) == Ok(r.value.results)
    ensures !v.Object? && !v.Array? ==> r.Err?
  {
    var ms :- Members(v, CURSOR_FIELDS);
    var next :- OptionalString(ms[0]);
    var previous :- OptionalString(ms[1]);
    var results :- RequiredSeq(ms[2], "results", decode);
    Ok(CursorList(next, previous, results))
  }

  /** The body `request_action::<Value>` accepts: any JSON. */
  function AnyValue(v: Value): (r: Result<Value, string>)
    ensures r == Ok(v)
  {
    Ok(v)
  }

  /** The body `request_action::<()>` accepts: JSON `null` only. */
  function UnitValue(v: Value): (r: Result<(), string>)
    ensures r.Ok? <==> v.Null?
  {
    if v.Null? then Ok(()) else Err("invalid type: expected unit")
  }
}
