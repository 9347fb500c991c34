/**
 * What every resource operation shares: the request parameters it assembles
 * (page numbers as decimal text, optional filters, JSON-encoded payload
 * entries) and the way it turns the client's answer into its own result (a
 * client error becomes the text "<context>: <error>"; a list envelope becomes
 * a paginated result tagged with the resource's name).
 */
module Facade {
  import opened Wrappers
  import opened Numbers
  import Json
  import opened Client
  import Envelope
  import Pagination

  // ------------------------------------------------------------ parameters

  /** `page.unwrap_or(1).to_string()` and `page_size.unwrap_or(10).to_string()`. */
  function PageQuery(page: Option<u32>, pageSize: Option<u8>): (m: map<string, string>)
    ensures m.Keys == {"page", "page_size"}
    ensures ParseDecimal(m["page"]) == Some(page.GetOr(1))
    ensures ParseDecimal(m["page_size"]) == Some(pageSize.GetOr(10))
  {
    ParseDecimalOfDecimal(page.GetOr(1));
    ParseDecimalOfDecimal(pageSize.GetOr(10));
    map["page" := Decimal(page.GetOr(1)), "page_size" := Decimal(pageSize.GetOr(10))]
  }

  /** Without arguments a listing asks for the first page of ten. */
  lemma DefaultPageQuery()
    ensures PageQuery(None, None) == map["page" := "1", "page_size" := "10"]
  {
    assert Decimal(1) == "1";
    assert Decimal(10) == Decimal(1) + [DigitChar(0)] == "10";
  }

  /**
   * The query of a filtered page listing: page and page size with their
   * defaults, and the filter `key` when a value for it is supplied.
   */
  function FilteredPageQuery(key: string, value: Option<string>, page: Option<u32>, pageSize: Option<u8>)
    : (m: map<string, string>)
    requires key != "page" && key != "page_size"
    ensures m.Keys == {"page", "page_size"} + (if value.Some? then {key} else {})
    ensures ParseDecimal(m["page"]) == Some(page.GetOr(1))
    ensures ParseDecimal(m["page_size"]) == Some(pageSize.GetOr(10))
    ensures value.Some? ==> m[key] == value.value
  {
    WithOptional(PageQuery(page, pageSize), key, value)
  }

  /** `if let Some(x) = value { m.insert(key, x) }`. */
  function WithOptional(m: map<string, string>, key: string, value: Option<string>): (r: map<string, string>)
    ensures r.Keys == if value.Some? then m.Keys + {key} else m.Keys
    ensures value.Some? ==> r[key] == value.value
    ensures forall k :: k in m && k != key ==> r[k] == m[k]
  {
    if value.Some? then m[key := value.value] else m
  }

  /**
   * The map after every payload entry has been inserted over `data` with its
   * value JSON-encoded: payload entries win over entries already present.
   */
  function Overlay(data: map<string, string>, payload: map<string, Json.Value>, encode: Json.Value -> string)
    : (r: map<string, string>)
    ensures r.Keys == data.Keys + payload.Keys
    ensures forall k :: k in payload ==> r[k] == encode(payload[k])
    ensures forall k :: k in data && k !in payload ==> r[k] == data[k]
  {
    map k | k in data.Keys + payload.Keys :: if k in payload then encode(payload[k]) else data[k]
  }

  /** The loop that inserts `serde_json::to_string(&value)` under each payload key, in any order. */
  method InsertEncoded(data: map<string, string>, payload: map<string, Json.Value>, encode: Json.Value -> string)
    returns (r: map<string, string>)
    ensures r == Overlay(data, payload, encode)
  {
    r := data;
    var remaining := payload.Keys;
    while remaining != {}
      invariant remaining <= payload.Keys
      invariant r.Keys == data.Keys + (payload.Keys - remaining)
      invariant forall k :: k in payload && k !in remaining ==> r[k] == encode(payload[k])
      invariant forall k :: k in data && k !in payload ==> r[k] == data[k]
      invariant forall k :: k in data && k in remaining ==> r[k] == data[k]
      decreases remaining
    {
      var k :| k in remaining;
      r := r[k := encode(payload[k])];
      remaining := remaining - {k};
    }
  }

  // ------------------------------------------------------------ results

  /** `.map_err(|e| format!("<context>: {}", e))`. */
  function Described<T>(r: Result<T, SwarmNodeError>, context: string): (d: Result<T, string>)
    ensures d.Ok? <==> r.Ok?
    ensures r.Ok? ==> d.value == r.value
    ensures r.Err? ==> d.error == context + ": " + Display(r.error)
  {
    match r
    case Ok(x) => Ok(x)
    case Err(e) => Err(context + ": " + Display(e))
  }

  /** The operation's outcome: a panic passes through, an answer is described. */
  function Outcome<T>(run: Run<Result<T, SwarmNodeError>>, context: string): (r: Run<Result<T, string>>)
    ensures r.Aborted? <==> run.Aborted?
    ensures run.Aborted? ==> r.cause == run.cause
    ensures run.Returned? ==> r.value == Described(run.value, context)
  {
    match run
    case Aborted(cause) => Aborted(cause)
    case Returned(x) => Returned(Described(x, context))
  }

  /** Under one context, the message of a failed operation determines the client error behind it. */
  lemma DescribedIdentifiesError<T>(r1: Result<T, SwarmNodeError>, r2: Result<T, SwarmNodeError>, context: string)
    requires r1.Err? && r2.Err?
    requires Described(r1, context) == Described(r2, context)
    ensures r1.error == r2.error
  {
    var p := context + ": ";
    assert Described(r1, context).error == p + Display(r1.error);
    assert (p + Display(r1.error))[|p|..] == Display(r1.error);
    assert (p + Display(r2.error))[|p|..] == Display(r2.error);
    DisplayInjective(r1.error, r2.error);
  }

  /** `delete` keeps only success or failure: `Ok(())` or the described error. */
  function Discarded<T>(run: Run<Result<T, SwarmNodeError>>, context: string): (r: Run<Result<(), string>>)
    ensures r.Aborted? <==> run.Aborted?
    ensures run.Aborted? ==> r.cause == run.cause
    ensures run.Returned? ==> (r.value.Ok? <==> run.value.Ok?)
    ensures run.Returned? && run.value.Err? ==> r.value.error == context + ": " + Display(run.value.error)
  {
    match run
    case Aborted(cause) => Aborted(cause)
    case Returned(Ok(_)) => Returned(Ok(()))
    case Returned(Err(e)) => Returned(Err(context + ": " + Display(e)))
  }

  /** `list` over a page envelope: the envelope's fields under the resource's tag. */
  function Paged<T>(run: Run<Result<Envelope.PageList<T>, SwarmNodeError>>, tag: string, context: string)
    : (r: Run<Result<Pagination.PagePaginated<T>, string>>)
    ensures r.Aborted? <==> run.Aborted?
    ensures run.Aborted? ==> r.cause == run.cause
    ensures run.Returned? ==> (r.value.Ok? <==> run.value.Ok?)
    ensures run.Returned? && run.value.Err? ==> r.value.error == context + ": " + Display(run.value.error)
    ensures run.Returned? && run.value.Ok? ==>
      var env := run.value.value;
      var p := r.value.value;
      && p.nextUrl == env.next && p.previousUrl == env.previous && p.results == env.results
      && p.totalCount == env.totalCount && p.currentPage == env.currentPage && p.resourceClass == tag
  {
    match run
    case Aborted(cause) => Aborted(cause)
    case Returned(Err(e)) => Returned(Err(context + ": " + Display(e)))
    case Returned(Ok(env)) =>
      Returned(Ok(Pagination.PagePaginated(env.next, env.previous, tag, env.totalCount, env.currentPage, env.results)))
  }

  /** `list` over a cursor envelope: the envelope's fields under the resource's tag. */
  function Cursored<T>(run: Run<Result<Envelope.CursorList<T>, SwarmNodeError>>, tag: string, context: string)
    : (r: Run<Result<Pagination.CursorPaginated<T>, string>>)
    ensures r.Aborted? <==> run.Aborted?
    ensures run.Aborted? ==> r.cause == run.cause
    ensures run.Returned? ==> (r.value.Ok? <==> run.value.Ok?)
    ensures run.Returned? && run.value.Err? ==> r.value.error == context + ": " + Display(run.value.error)
    ensures run.Returned? && run.value.Ok? ==>
      var env := run.value.value;
      var p := r.value.value;
      && p.nextUrl == env.next && p.previousUrl == env.previous && p.results == env.results
      && p.resourceClass == tag
  {
    match run
    case Aborted(cause) => Aborted(cause)
    case Returned(Err(e)) => Returned(Err(context + ": " + Display(e)))
    case Returned(Ok(env)) => Returned(Ok(Pagination.CursorPaginated(env.next, env.previous, tag, env.results)))
  }
}
