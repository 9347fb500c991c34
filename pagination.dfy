/**
 * The two paginated result types and their traversal. `next` and `previous`
 * build nothing in place: each either reports that there is no continuation
 * URL, or issues one GET against the stored URL and reads a fresh page from
 * the JSON it gets back, keeping the resource tag. Unlike a `list` call, the
 * traversal reads the envelope leniently (`as_str`, `as_u64`, default 0,
 * `as u32`) and panics on a failed request, a body that is not JSON, or
 * results that do not decode.
 */
module Pagination {
  import opened Wrappers
  import opened Numbers
  import opened Json
  import Config
  import opened Client
  import Envelope

  datatype CursorPaginated<T> = CursorPaginated(
    nextUrl: Option<string>,
    previousUrl: Option<string>,
    resourceClass: string,
    results: seq<T>)

  datatype PagePaginated<T> = PagePaginated(
    nextUrl: Option<string>,
    previousUrl: Option<string>,
    resourceClass: string,
    totalCount: u32,
    currentPage: u32,
    results: seq<T>)

  /** The one request a traversal step sends: a GET to the stored URL, no query, no body. */
  function TraversalRequest(cfg: Config.Settings, url: string): HttpRequest
    requires cfg.apiKey.Some?
  {
    HttpRequest(Get, url, Bearer(cfg.apiKey.value), None, None)
  }

  /**
   * `request_url("GET", url, None).await.unwrap()` followed by
   * `response.json().await.unwrap()`: the JSON of a 2xx answer, or a panic.
   */
  function FetchEnvelope(cfg: Config.Settings, url: string, net: HttpRequest -> Exchange): (r: Run<Value>)
    ensures HttpAuthorization(cfg).Aborted? ==> r == Aborted(HttpAuthorization(cfg).cause)
    ensures HttpAuthorization(cfg).Returned? ==>
      var ex := net(TraversalRequest(cfg, url));
      && (r.Returned? <==> ex.Responded? && IsSuccess(ex.status) && ex.body.JsonBody?)
      && (r.Returned? ==> r.value == ex.body.value)
      && (ex.SendFailed? ==> r == Aborted(RequestFailed(Other("Request failed: " + ex.error))))
      && (ex.Responded? && !IsSuccess(ex.status) ==> r == Aborted(RequestFailed(FromResponse(ex.status, ex.reason))))
      && (ex.Responded? && IsSuccess(ex.status) && ex.body.MalformedBody? ==> r == Aborted(BodyNotJson(ex.body.error)))
  {
    match RequestUrl(cfg, Get, url, None, net)
    case Aborted(cause) => Aborted(cause)
    case Returned(Err(e)) => Aborted(RequestFailed(e))
    case Returned(Ok(MalformedBody(detail))) => Aborted(BodyNotJson(detail))
    case Returned(Ok(JsonBody(v))) => Returned(v)
  }

  /** `json[key].as_str()`: a continuation URL only when the member is a string. */
  function Continuation(v: Value, key: string): (r: Option<string>)
    ensures r.Some? <==> v.Object? && key in v.fields && v.fields[key].Str?
    ensures r.Some? ==> r.value == v.fields[key].s
  {
    AsStr(Index(v, key))
  }

  /** `json[key].as_u64().unwrap_or(0) as u32`. */
  function Count(v: Value, key: string): (r: u32)
    ensures AsU64(Index(v, key)).None? ==> r == 0
    ensures !(v.Object? && key in v.fields) ==> r == 0
    ensures v.Object? && key in v.fields && v.fields[key].Int? && 0 <= v.fields[key].i < U32_LIMIT ==>
      r == v.fields[key].i
    ensures v.Object? && key in v.fields && v.fields[key].Int? && 0 <= v.fields[key].i < U64_LIMIT ==>
      exists q: nat :: q * U32_LIMIT + r == v.fields[key].i
  {
    TruncateU32(AsU64(Index(v, key)).GetOr(0))
  }

  /** `p` is the cursor page the traversal reads from envelope `v` for a sequence tagged `tag`. */
  predicate CursorReadFrom<T(==)>(p: CursorPaginated<T>, v: Value, tag: string, decode: Value -> Result<T, string>) {
    && p.nextUrl == Continuation(v, "next")
    && p.previousUrl == Continuation(v, "previous")
    && p.resourceClass == tag
    && DecodeArray(Index(v, "results"), decode) == Ok(p.results)
  }

  /** `p` is the page the traversal reads from envelope `v` for a sequence tagged `tag`. */
  predicate PageReadFrom<T(==)>(p: PagePaginated<T>, v: Value, tag: string, decode: Value -> Result<T, string>) {
    && p.nextUrl == Continuation(v, "next")
    && p.previousUrl == Continuation(v, "previous")
    && p.resourceClass == tag
    && p.totalCount == Count(v, "total_count")
    && p.currentPage == Count(v, "current_page")
    && DecodeArray(Index(v, "results"), decode) == Ok(p.results)
  }

  function CursorFrom<T(==)>(v: Value, tag: string, decode: Value -> Result<T, string>): (r: Run<CursorPaginated<T>>)
    ensures r.Returned? <==> DecodeArray(Index(v, "results"), decode).Ok?
    ensures r.Returned? ==> CursorReadFrom(r.value, v, tag, decode)
    ensures r.Aborted? ==> r.cause == ResultsNotDecodable(DecodeArray(Index(v, "results"), decode).error)
  {
    match DecodeArray(Index(v, "results"), decode)
    case Err(e) => Aborted(ResultsNotDecodable(e))
    case Ok(results) => Returned(CursorPaginated(Continuation(v, "next"), Continuation(v, "previous"), tag, results))
  }

  function PageFrom<T(==)>(v: Value, tag: string, decode: Value -> Result<T, string>): (r: Run<PagePaginated<T>>)
    ensures r.Returned? <==> DecodeArray(Index(v, "results"), decode).Ok?
    ensures r.Returned? ==> PageReadFrom(r.value, v, tag, decode)
    ensures r.Aborted? ==> r.cause == ResultsNotDecodable(DecodeArray(Index(v, "results"), decode).error)
  {
    match DecodeArray(Index(v, "results"), decode)
    case Err(e) => Aborted(ResultsNotDecodable(e))
    case Ok(results) =>
      Returned(PagePaginated(
        Continuation(v, "next"), Continuation(v, "previous"), tag,
        Count(v, "total_count"), Count(v, "current_page"), results))
  }

  /** One traversal step over a cursor sequence: nothing without a URL, else fetch and read. */
  function CursorStep<T(==)>(
    url: Option<string>, tag: string, cfg: Config.Settings, net: HttpRequest -> Exchange,
    decode: Value -> Result<T, string>)
    : (r: Run<Option<CursorPaginated<T>>>)
    ensures url.None? <==> r == Returned(None)
    ensures url.Some? && FetchEnvelope(cfg, url.value, net).Aborted? ==>
      r == Aborted(FetchEnvelope(cfg, url.value, net).cause)
    ensures url.Some? && FetchEnvelope(cfg, url.value, net).Returned? ==>
      var v := FetchEnvelope(cfg, url.value, net).value;
      && (r.Aborted? <==> DecodeArray(Index(v, "results"), decode).Err?)
      && (r.Returned? ==> r.value.Some? && CursorReadFrom(r.value.value, v, tag, decode))
  {
    match url
    case None => Returned(None)
    case Some(u) =>
      match FetchEnvelope(cfg, u, net)
      case Aborted(cause) => Aborted(cause)
      case Returned(v) =>
        match CursorFrom(v, tag, decode)
        case Aborted(cause) => Aborted(cause)
        case Returned(q) => Returned(Some(q))
  }

  /** One traversal step over a page sequence: nothing without a URL, else fetch and read. */
  function PageStep<T(==)>(
    url: Option<string>, tag: string, cfg: Config.Settings, net: HttpRequest -> Exchange,
    decode: Value -> Result<T, string>)
    : (r: Run<Option<PagePaginated<T>>>)
    ensures url.None? <==> r == Returned(None)
    ensures url.Some? && FetchEnvelope(cfg, url.value, net).Aborted? ==>
      r == Aborted(FetchEnvelope(cfg, url.value, net).cause)
    ensures url.Some? && FetchEnvelope(cfg, url.value, net).Returned? ==>
      var v := FetchEnvelope(cfg, url.value, net).value;
      && (r.Aborted? <==> DecodeArray(Index(v, "results"), decode).Err?)
      && (r.Returned? ==> r.value.Some? && PageReadFrom(r.value.value, v, tag, decode))
  {
    match url
    case None => Returned(None)
    case Some(u) =>
      match FetchEnvelope(cfg, u, net)
      case Aborted(cause) => Aborted(cause)
      case Returned(v) =>
        match PageFrom(v, tag, decode)
        case Aborted(cause) => Aborted(cause)
        case Returned(q) => Returned(Some(q))
  }

  /** `CursorPaginatedResource::next`. */
  function CursorNext<T(==)>(
    p: CursorPaginated<T>, cfg: Config.Settings, net: HttpRequest -> Exchange, decode: Value -> Result<T, string>)
    : (r: Run<Option<CursorPaginated<T>>>)
    ensures p.nextUrl.None? <==> r == Returned(None)
    ensures r.Returned? && r.value.Some? ==>
      && p.nextUrl.Some?
      && FetchEnvelope(cfg, p.nextUrl.value, net).Returned?
      && CursorReadFrom(r.value.value, FetchEnvelope(cfg, p.nextUrl.value, net).value, p.resourceClass, decode)
    ensures r == CursorStep(p.nextUrl, p.resourceClass, cfg, net, decode)
  {
    CursorStep(p.nextUrl, p.resourceClass, cfg, net, decode)
  }

  /** `CursorPaginatedResource::previous`. */
  function CursorPrevious<T(==)>(
    p: CursorPaginated<T>, cfg: Config.Settings, net: HttpRequest -> Exchange, decode: Value -> Result<T, string>)
    : (r: Run<Option<CursorPaginated<T>>>)
    ensures p.previousUrl.None? <==> r == Returned(None)
    ensures r.Returned? && r.value.Some? ==>
      && p.previousUrl.Some?
      && FetchEnvelope(cfg, p.previousUrl.value, net).Returned?
      && CursorReadFrom(r.value.value, FetchEnvelope(cfg, p.previousUrl.value, net).value, p.resourceClass, decode)
    ensures r == CursorStep(p.previousUrl, p.resourceClass, cfg, net, decode)
  {
    CursorStep(p.previousUrl, p.resourceClass, cfg, net, decode)
  }

  /** `PagePaginatedResource::next`. */
  function PageNext<T(==)>(
    p: PagePaginated<T>, cfg: Config.Settings, net: HttpRequest -> Exchange, decode: Value -> Result<T, string>)
    : (r: Run<Option<PagePaginated<T>>>)
    ensures p.nextUrl.None? <==> r == Returned(None)
    ensures r.Returned? && r.value.Some? ==>
      && p.nextUrl.Some?
      && FetchEnvelope(cfg, p.nextUrl.value, net).Returned?
      && PageReadFrom(r.value.value, FetchEnvelope(cfg, p.nextUrl.value, net).value, p.resourceClass, decode)
    ensures r == PageStep(p.nextUrl, p.resourceClass, cfg, net, decode)
  {
    PageStep(p.nextUrl, p.resourceClass, cfg, net, decode)
  }

  /** `PagePaginatedResource::previous`. */
  function PagePrevious<T(==)>(
    p: PagePaginated<T>, cfg: Config.Settings, net: HttpRequest -> Exchange, decode: Value -> Result<T, string>)
    : (r: Run<Option<PagePaginated<T>>>)
    ensures p.previousUrl.None? <==> r == Returned(None)
    ensures r.Returned? && r.value.Some? ==>
      && p.previousUrl.Some?
      && FetchEnvelope(cfg, p.previousUrl.value, net).Returned?
      && PageReadFrom(r.value.value, FetchEnvelope(cfg, p.previousUrl.value, net).value, p.resourceClass, decode)
    ensures r == PageStep(p.previousUrl, p.resourceClass, cfg, net, decode)
  {
    PageStep(p.previousUrl, p.resourceClass, cfg, net, decode)
  }

  /**
   * A step consults the network at one request only, the GET to the URL it
   * follows: networks that agree there give the same result, and a step
   * without a URL (or without a key) consults nothing.
   */
  lemma PageStepConsultsOneRequest<T>(
    url: Option<string>, tag: string, cfg: Config.Settings, net1: HttpRequest -> Exchange,
    net2: HttpRequest -> Exchange, decode: Value -> Result<T, string>)
    requires url.Some? && cfg.apiKey.Some? ==>
      net1(TraversalRequest(cfg, url.value)) == net2(TraversalRequest(cfg, url.value))
    ensures PageStep(url, tag, cfg, net1, decode) == PageStep(url, tag, cfg, net2, decode)
  {
  }

  lemma CursorStepConsultsOneRequest<T>(
    url: Option<string>, tag: string, cfg: Config.Settings, net1: HttpRequest -> Exchange,
    net2: HttpRequest -> Exchange, decode: Value -> Result<T, string>)
    requires url.Some? && cfg.apiKey.Some? ==>
      net1(TraversalRequest(cfg, url.value)) == net2(TraversalRequest(cfg, url.value))
    ensures CursorStep(url, tag, cfg, net1, decode) == CursorStep(url, tag, cfg, net2, decode)
  {
  }

  /** The tag survives any number of steps forward or back. */
  lemma {:induction false} TagPreservedAlongWalk<T>(
    p: PagePaginated<T>, walk: seq<bool>, cfg: Config.Settings, net: HttpRequest -> Exchange,
    decode: Value -> Result<T, string>)
    ensures var r := Walk(p, walk, cfg, net, decode);
      r.Returned? && r.value.Some? ==> r.value.value.resourceClass == p.resourceClass
    decreases |walk|
  {
    if |walk| > 0 {
      var step := if walk[0] then PageNext(p, cfg, net, decode) else PagePrevious(p, cfg, net, decode);
      if step.Returned? && step.value.Some? {
        TagPreservedAlongWalk(step.value.value, walk[1..], cfg, net, decode);
      }
    }
  }

  /** Follows `walk` from `p`: `true` is `next`, `false` is `previous`; stops at the first end or panic. */
  function Walk<T(==)>(
    p: PagePaginated<T>, walk: seq<bool>, cfg: Config.Settings, net: HttpRequest -> Exchange,
    decode: Value -> Result<T, string>)
    : Run<Option<PagePaginated<T>>>
    decreases |walk|
  {
    if |walk| == 0 then Returned(Some(p))
    else
      var step := if walk[0] then PageNext(p, cfg, net, decode) else PagePrevious(p, cfg, net, decode);
      match step
      case Aborted(cause) => Aborted(cause)
      case Returned(None) => Returned(None)
      case Returned(Some(q)) => Walk(q, walk[1..], cfg, net, decode)
  }

  /** The cursor-side walk: `true` is `next`, `false` is `previous`; stops at the first end or panic. */
  function CursorWalk<T(==)>(
    p: CursorPaginated<T>, walk: seq<bool>, cfg: Config.Settings, net: HttpRequest -> Exchange,
    decode: Value -> Result<T, string>)
    : Run<Option<CursorPaginated<T>>>
    decreases |walk|
  {
    if |walk| == 0 then Returned(Some(p))
    else
      var step := if walk[0] then CursorNext(p, cfg, net, decode) else CursorPrevious(p, cfg, net, decode);
      match step
      case Aborted(cause) => Aborted(cause)
      case Returned(None) => Returned(None)
      case Returned(Some(q)) => CursorWalk(q, walk[1..], cfg, net, decode)
  }

  /** The tag of a cursor sequence survives any number of steps forward or back. */
  lemma {:induction false} TagPreservedAlongCursorWalk<T>(
    p: CursorPaginated<T>, walk: seq<bool>, cfg: Config.Settings, net: HttpRequest -> Exchange,
    decode: Value -> Result<T, string>)
    ensures var r := CursorWalk(p, walk, cfg, net, decode);
      r.Returned? && r.value.Some? ==> r.value.value.resourceClass == p.resourceClass
    decreases |walk|
  {
    if |walk| > 0 {
      var step := if walk[0] then CursorNext(p, cfg, net, decode) else CursorPrevious(p, cfg, net, decode);
      if step.Returned? && step.value.Some? {
        TagPreservedAlongCursorWalk(step.value.value, walk[1..], cfg, net, decode);
      }
    }
  }

  /**
   * On an object envelope that `list` accepts, the traversal reads the same
   * continuation URLs, counts and results that `list` wraps.
   */
  lemma ListAndTraversalAgree<T>(v: Value, tag: string, decode: Value -> Result<T, string>)
    requires v.Object? && Envelope.DecodePageList(v, decode).Ok?
    ensures var env := Envelope.DecodePageList(v, decode).value;
      PageFrom(v, tag, decode) ==
        Returned(PagePaginated(env.next, env.previous, tag, env.totalCount, env.currentPage, env.results))
  {
  }

  /**
   * The array form of an envelope is accepted by `list`, but the traversal
   * finds no "results" member in it and panics.
   */
  lemma ArrayEnvelopeOnlyListReads<T>(decode: Value -> Result<T, string>)
    ensures var v := Array([Null, Null, Array([]), Int(0), Int(1)]);
      && Envelope.DecodePageList(v, decode) == Ok(Envelope.PageList(None, None, [], 0, 1))
      && PageFrom(v, "Agent", decode).Aborted?
  {
  }
}
