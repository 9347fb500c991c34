/**
 * The transport: the client's error type and its rendering, the request it
 * builds from a call description and the configuration, the classification
 * of the response, and the two WebSocket entry points.
 *
 * The network is a parameter `net` that answers one HTTP request; the
 * WebSocket server is a parameter `ws` that answers a connection URL with
 * the items the connection's message stream yields until it ends. Where the source panics (`unwrap`,
 * `expect`) the model returns `Aborted` with the cause.
 */
module Client {
  import opened Wrappers
  import opened Numbers
  import Json
  import Config

  // ---------------------------------------------------------------- errors

  datatype SwarmNodeError =
    | BadRequest(msg: string)
    | Unauthenticated(msg: string)
    | NotFound(msg: string)
    | ApiKeyNotSet
    | Other(msg: string)

  /** The error's `Display` text: a fixed prefix per variant, then the message. */
  function Display(e: SwarmNodeError): (d: string)
    ensures e.ApiKeyNotSet? <==> d == "API Key not set"
    ensures !e.ApiKeyNotSet? ==>
      var k := |d| - |e.msg|;
      k >= 2 && d[k - 2..k] == ": " && d[k..] == e.msg
  {
    match e
    // The first letter alone tells every labelled text from "API Key not set".
    case BadRequest(m) => assert ("Bad Request: " + m)[0] == 'B'; "Bad Request: " + m
    case Unauthenticated(m) => assert ("Unauthenticated: " + m)[0] == 'U'; "Unauthenticated: " + m
    case NotFound(m) => assert ("Not Found: " + m)[0] == 'N'; "Not Found: " + m
    case ApiKeyNotSet => "API Key not set"
    case Other(m) => assert ("Other Error: " + m)[0] == 'O'; "Other Error: " + m
  }

  /** The rendering loses nothing: the variant and the message can be told apart from the text. */
  lemma DisplayInjective(e1: SwarmNodeError, e2: SwarmNodeError)
    ensures Display(e1) == Display(e2) ==> e1 == e2
  {
    if Display(e1) == Display(e2) {
      var d := Display(e1);
      assert d[0] == Display(e2)[0];
      match e1
      case BadRequest(m) =>
        assert d[13..] == m;
        assert e2.BadRequest? && Display(e2)[13..] == e2.msg;
      case Unauthenticated(m) =>
        assert d[17..] == m;
        assert e2.Unauthenticated? && Display(e2)[17..] == e2.msg;
      case NotFound(m) =>
        assert d[11..] == m;
        assert e2.NotFound? && Display(e2)[11..] == e2.msg;
      case ApiKeyNotSet =>
        assert e2.ApiKeyNotSet?;
      case Other(m) =>
        assert d[13..] == m;
        assert e2.Other? && Display(e2)[13..] == e2.msg;
    }
  }

  /** An HTTP status code, as the http crate admits them. */
  type StatusCode = c: int | 100 <= c <= 999 witness 200

  /** `is_success`: the 2xx class of section 15.3 of RFC 9110. */
  predicate IsSuccess(status: StatusCode)
    ensures IsSuccess(status) <==> status / 100 == 2
  {
    200 <= status <= 299
  }

  /**
   * `from_response`: every failed status becomes `Other("HTTP {code}: {reason}")`,
   * the reason being the status's canonical phrase or "Unknown status".
   */
  function FromResponse(status: StatusCode, reason: Option<string>): (e: SwarmNodeError)
    ensures e.Other?
  {
    Other("HTTP " + Decimal(status) + ": " + reason.GetOr("Unknown status"))
  }

  /** The longest prefix of `s` made of decimal digits. */
  function DigitRun(s: string): (d: string)
    ensures |d| <= |s| && d == s[..|d|]
    decreases |s|
  {
    if |s| == 0 || !IsDigit(s[0]) then [] else [s[0]] + DigitRun(s[1..])
  }

  lemma {:induction false} DigitRunOfDigits(d: string, t: string)
    requires forall i :: 0 <= i < |d| ==> IsDigit(d[i])
    requires |t| > 0 && !IsDigit(t[0])
    ensures DigitRun(d + t) == d
    decreases |d|
  {
    if |d| > 0 {
      assert (d + t)[1..] == d[1..] + t;
      DigitRunOfDigits(d[1..], t);
    } else {
      assert d + t == t;
    }
  }

  /** Reads the status code back out of an "HTTP {code}: ..." message. */
  function StatusCodeOf(msg: string): Option<nat> {
    if |msg| >= 5 && msg[..5] == "HTTP " then ParseDecimal(DigitRun(msg[5..])) else None
  }

  /** The status code survives into the message text. */
  lemma FromResponseKeepsStatus(status: StatusCode, reason: Option<string>)
    ensures StatusCodeOf(FromResponse(status, reason).msg) == Some(status)
  {
    var msg := FromResponse(status, reason).msg;
    var tail := ": " + reason.GetOr("Unknown status");
    assert msg == "HTTP " + (Decimal(status) + tail);
    assert msg[..5] == "HTTP ";
    assert msg[5..] == Decimal(status) + tail;
    DigitRunOfDigits(Decimal(status), tail);
    ParseDecimalOfDecimal(status);
  }

  /** The reason phrase, or "Unknown status" without one, follows the code and ": ". */
  lemma FromResponseKeepsReason(status: StatusCode, reason: Option<string>)
    ensures var msg := FromResponse(status, reason).msg;
      var k := 5 + |Decimal(status)| + 2;
      |msg| >= k && msg[k - 2..k] == ": " && msg[k..] == reason.GetOr("Unknown status")
    ensures reason.None? ==> FromResponse(status, reason) == Other("HTTP " + Decimal(status) + ": Unknown status")
  {
  }

  // ------------------------------------------------------------ panics

  /** Why a call panics instead of returning. */
  datatype Abort =
    | ApiKeyMissing                        // get_api_key().expect("API key not set!")
    | InvalidHeaderValue                   // HeaderValue::from_str(..).unwrap()
    | RequestFailed(error: SwarmNodeError) // request_url(..).await.unwrap() while paging
    | BodyNotJson(detail: string)          // response.json().await.unwrap() while paging
    | ResultsNotDecodable(detail: string)  // from_value(json["results"]).unwrap() while paging
    | ConnectFailed(detail: string)        // connect_async(..).expect("Failed to connect to WebSocket")
    | NoFrame                              // ws_stream.next().await.unwrap() on a stream with no item

  /** A call either returns its value or panics. */
  datatype Run<+T> = Returned(value: T) | Aborted(cause: Abort)

  // ------------------------------------------------------------ requests

  datatype Method = Get | Post | Patch | Delete

  /** What a resource operation hands to `request_action`. */
  datatype Call = Call(
    verb: Method,
    path: string,
    params: Option<map<string, string>>,
    data: Option<map<string, string>>)

  /** The request put on the wire: query parameters and JSON body only when given. */
  datatype HttpRequest = HttpRequest(
    verb: Method,
    url: string,
    authorization: string,
    query: Option<map<string, string>>,
    json: Option<map<string, string>>)

  /** A response body: JSON text, or text that does not parse. */
  datatype Body = JsonBody(value: Json.Value) | MalformedBody(error: string)

  /** What the network answers: a send failure, or a status, its canonical reason and a body. */
  datatype Exchange =
    | SendFailed(error: string)
    | Responded(status: StatusCode, reason: Option<string>, body: Body)

  /** `https://{base}/v1/{path}`. */
  function ActionUrl(base: string, path: string): string {
    "https://" + base + "/v1/" + path
  }

  /** The action path of an action URL on `base`, if `url` is one. */
  function ActionPathOf(base: string, url: string): Option<string> {
    var prefix := "https://" + base + "/v1/";
    if |prefix| <= |url| && url[..|prefix|] == prefix then Some(url[|prefix|..]) else None
  }

  lemma ActionPathOfActionUrl(base: string, path: string)
    ensures ActionPathOf(base, ActionUrl(base, path)) == Some(path)
  {
  }

  /** The Authorization value of the bearer scheme, section 2.1 of RFC 6750. */
  function Bearer(key: string): string {
    "Bearer " + key
  }

  /** The token of a bearer Authorization value. */
  function BearerToken(header: string): Option<string> {
    if |header| >= 7 && header[..7] == "Bearer " then Some(header[7..]) else None
  }

  lemma BearerTokenOfBearer(key: string)
    ensures BearerToken(Bearer(key)) == Some(key)
  {
  }

  /** A character `HeaderValue::from_str` accepts: tab, or anything from space up except DEL. */
  predicate HeaderChar(c: char) {
    c == '\t' || (' ' <= c && c as int != 127)
  }

  predicate ValidHeaderValue(s: string) {
    forall i :: 0 <= i < |s| ==> HeaderChar(s[i])
  }

  /**
   * `get_http_headers`: the bearer value of the configured key. A missing key
   * panics (the source never returns `ApiKeyNotSet`), and so does a key the
   * header type refuses.
   */
  function HttpAuthorization(cfg: Config.Settings): (r: Run<string>)
    ensures cfg.apiKey.None? ==> r == Aborted(ApiKeyMissing)
    ensures cfg.apiKey.Some? && !ValidHeaderValue(Bearer(cfg.apiKey.value)) ==> r == Aborted(InvalidHeaderValue)
    ensures r.Returned? ==> cfg.apiKey.Some? && r.value == Bearer(cfg.apiKey.value) && ValidHeaderValue(r.value)
  {
    match cfg.apiKey
    case None => Aborted(ApiKeyMissing)
    case Some(key) =>
      if ValidHeaderValue(Bearer(key)) then Returned(Bearer(key)) else Aborted(InvalidHeaderValue)
  }

  /** Only the key can make the header invalid: the scheme prefix itself is acceptable. */
  lemma BearerValidIffKeyValid(key: string)
    ensures ValidHeaderValue(Bearer(key)) <==> ValidHeaderValue(key)
  {
    var h := Bearer(key);
    assert forall i :: 0 <= i < |key| ==> h[7 + i] == key[i];
    assert forall i :: 0 <= i < 7 ==> HeaderChar(h[i]);
    if ValidHeaderValue(key) {
      forall i | 0 <= i < |h| ensures HeaderChar(h[i]) {
        if i >= 7 { assert h[i] == key[i - 7]; }
      }
    }
  }

  /** The request `request_action` sends for a call. */
  function ActionRequest(base: string, call: Call, authorization: string): HttpRequest {
    HttpRequest(call.verb, ActionUrl(base, call.path), authorization, call.params, call.data)
  }

  /**
   * The request carries the call unchanged: its method, its path under the
   * origin, and its query parameters and body exactly when the call has them.
   */
  lemma ActionRequestCarriesCall(base: string, call: Call, authorization: string)
    ensures var req := ActionRequest(base, call, authorization);
      && req.verb == call.verb
      && ActionPathOf(base, req.url) == Some(call.path)
      && req.authorization == authorization
      && (req.query.Some? <==> call.params.Some?) && req.query == call.params
      && (req.json.Some? <==> call.data.Some?) && req.json == call.data
  {
  }

  /**
   * The outcome of `request_url`: a send failure and a failed status become
   * `Other` errors; a 2xx response hands its body on.
   */
  function ClassifyResponse(ex: Exchange): (r: Result<Body, SwarmNodeError>)
    ensures r.Ok? <==> ex.Responded? && IsSuccess(ex.status)
    ensures r.Ok? ==> r.value == ex.body
    ensures r.Err? ==> r.error.Other?
    ensures ex.SendFailed? ==> r == Err(Other("Request failed: " + ex.error))
    ensures ex.Responded? && !IsSuccess(ex.status) ==> r == Err(FromResponse(ex.status, ex.reason))
  {
    match ex
    case SendFailed(e) => Err(Other("Request failed: " + e))
    case Responded(status, reason, body) =>
      if IsSuccess(status) then Ok(body) else Err(FromResponse(status, reason))
  }

  /**
   * The outcome of `request_action`: as `request_url`, and a 2xx body is then
   * decoded, a body that does not decode being a distinct `Other` error.
   */
  function Classify<T>(ex: Exchange, decode: Json.Value -> Result<T, string>): (r: Result<T, SwarmNodeError>)
    ensures r.Ok? <==> ex.Responded? && IsSuccess(ex.status) && ex.body.JsonBody? && decode(ex.body.value).Ok?
    ensures r.Ok? ==> decode(ex.body.value) == Ok(r.value)
    ensures r.Err? ==> r.error.Other?
    ensures ex.SendFailed? ==> r == Err(Other("Request failed: " + ex.error))
    ensures ex.Responded? && !IsSuccess(ex.status) ==> r == Err(FromResponse(ex.status, ex.reason))
    ensures ex.Responded? && IsSuccess(ex.status) && ex.body.MalformedBody? ==>
      r == Err(Other("Failed to parse response body: " + ex.body.error))
    ensures ex.Responded? && IsSuccess(ex.status) && ex.body.JsonBody? && decode(ex.body.value).Err? ==>
      r == Err(Other("Failed to parse response body: " + decode(ex.body.value).error))
  {
    match ClassifyResponse(ex)
    case Err(e) => Err(e)
    case Ok(MalformedBody(detail)) => Err(Other("Failed to parse response body: " + detail))
    case Ok(JsonBody(v)) =>
      match decode(v)
      case Ok(x) => Ok(x)
      case Err(detail) => Err(Other("Failed to parse response body: " + detail))
  }

  /**
   * What `request_action` does with a call: panic without a usable key,
   * otherwise send exactly one request and classify the answer.
   */
  function Perform<T>(
    cfg: Config.Settings, call: Call, net: HttpRequest -> Exchange, decode: Json.Value -> Result<T, string>)
    : (r: Run<Result<T, SwarmNodeError>>)
    ensures r.Aborted? <==> HttpAuthorization(cfg).Aborted?
    ensures cfg.apiKey.None? ==> r == Aborted(ApiKeyMissing)
    ensures r.Returned? ==>
      r.value == Classify(net(ActionRequest(cfg.apiBase, call, Bearer(cfg.apiKey.value))), decode)
    ensures r.Returned? && r.value.Err? ==> r.value.error.Other?
  {
    match HttpAuthorization(cfg)
    case Aborted(cause) => Aborted(cause)
    case Returned(auth) => Returned(Classify(net(ActionRequest(cfg.apiBase, call, auth)), decode))
  }

  /**
   * The network is consulted at one request only: two networks that agree on
   * it give the same outcome, and with no key the network is not consulted.
   */
  lemma PerformConsultsOneRequest<T>(
    cfg: Config.Settings, call: Call, net1: HttpRequest -> Exchange, net2: HttpRequest -> Exchange,
    decode: Json.Value -> Result<T, string>)
    requires cfg.apiKey.Some? ==>
      var req := ActionRequest(cfg.apiBase, call, Bearer(cfg.apiKey.value));
      net1(req) == net2(req)
    ensures Perform(cfg, call, net1, decode) == Perform(cfg, call, net2, decode)
  {
  }

  /** `request_action`: builds the request step by step, sends it, classifies the answer. */
  method RequestAction<T>(
    cfg: Config.Settings, call: Call, net: HttpRequest -> Exchange, decode: Json.Value -> Result<T, string>)
    returns (r: Run<Result<T, SwarmNodeError>>)
    ensures r == Perform(cfg, call, net, decode)
  {
    var url := ActionUrl(cfg.apiBase, call.path);
    var authorization := HttpAuthorization(cfg);
    if authorization.Aborted? {
      return Aborted(authorization.cause);
    }
    var request := HttpRequest(call.verb, url, authorization.value, None, None);
    if call.params.Some? {
      request := request.(query := call.params);
    }
    if call.data.Some? {
      request := request.(json := call.data);
    }
    var response := net(request);
    r := Returned(Classify(response, decode));
  }

  /**
   * `request_url`: one request to an absolute URL, with no query parameters
   * and a JSON body only when `data` is given; the 2xx body is not decoded.
   */
  function RequestUrl(
    cfg: Config.Settings, verb: Method, url: string, data: Option<map<string, string>>,
    net: HttpRequest -> Exchange)
    : (r: Run<Result<Body, SwarmNodeError>>)
    ensures r.Aborted? <==> HttpAuthorization(cfg).Aborted?
    ensures r.Returned? ==>
      r.value == ClassifyResponse(net(HttpRequest(verb, url, Bearer(cfg.apiKey.value), None, data)))
  {
    match HttpAuthorization(cfg)
    case Aborted(cause) => Aborted(cause)
    case Returned(auth) => Returned(ClassifyResponse(net(HttpRequest(verb, url, auth, None, data))))
  }

  // ------------------------------------------------------------ WebSocket

  /** `wss://{base}/ws/v1/execution/{address}/`, the single-message endpoint. */
  function ExecutionUrl(base: string, address: string): string {
    "wss://" + base + "/ws/v1/execution/" + address + "/"
  }

  /** `wss://{base}/ws/v1/execution-stream/{address}/`, the streaming endpoint. */
  function ExecutionStreamUrl(base: string, address: string): string {
    "wss://" + base + "/ws/v1/execution-stream/" + address + "/"
  }

  /** On one origin the two endpoints never coincide, whatever the addresses. */
  lemma ExecutionUrlsDiffer(base: string, a1: string, a2: string)
    ensures ExecutionUrl(base, a1) != ExecutionStreamUrl(base, a2)
  {
    var k := 6 + |base| + 16;
    var u1 := ExecutionUrl(base, a1);
    var u2 := ExecutionStreamUrl(base, a2);
    assert u1 == ("wss://" + base + "/ws/v1/execution") + ("/" + a1 + "/");
    assert u2 == ("wss://" + base + "/ws/v1/execution") + ("-stream/" + a2 + "/");
    assert u1[k] == '/';
    assert u2[k] == '-';
  }

  /** Each endpoint URL determines the address it was built from. */
  lemma ExecutionUrlsInjective(base: string, a1: string, a2: string)
    ensures ExecutionUrl(base, a1) == ExecutionUrl(base, a2) ==> a1 == a2
    ensures ExecutionStreamUrl(base, a1) == ExecutionStreamUrl(base, a2) ==> a1 == a2
  {
    var p1 := "wss://" + base + "/ws/v1/execution/";
    var p2 := "wss://" + base + "/ws/v1/execution-stream/";
    assert ExecutionUrl(base, a1) == p1 + a1 + "/";
    assert ExecutionUrl(base, a2) == p1 + a2 + "/";
    assert ExecutionStreamUrl(base, a1) == p2 + a1 + "/";
    assert ExecutionStreamUrl(base, a2) == p2 + a2 + "/";
    if ExecutionUrl(base, a1) == ExecutionUrl(base, a2) {
      assert (p1 + a1 + "/")[|p1|..|p1| + |a1|] == a1;
      assert (p1 + a2 + "/")[|p1|..|p1| + |a2|] == a2;
    }
    if ExecutionStreamUrl(base, a1) == ExecutionStreamUrl(base, a2) {
      assert (p2 + a1 + "/")[|p2|..|p2| + |a1|] == a1;
      assert (p2 + a2 + "/")[|p2|..|p2| + |a2|] == a2;
    }
  }

  /**
   * `get_ws_headers`: needs a key (a missing one panics) and builds the bearer
   * value, which is then never handed to the connection.
   */
  function WsAuthorization(cfg: Config.Settings): (r: Run<string>)
    ensures cfg.apiKey.None? <==> r == Aborted(ApiKeyMissing)
    ensures cfg.apiKey.Some? ==> r == Returned(Bearer(cfg.apiKey.value))
  {
    match cfg.apiKey
    case None => Aborted(ApiKeyMissing)
    case Some(key) => Returned(Bearer(key))
  }

  /**
   * One item pulled from the socket: a message rendered as text, or a read
   * error. Every message counts, control messages included: a Ping or Pong
   * renders as its payload text and the peer's Close as its reason.
   */
  datatype FrameResult = Frame(text: string) | FrameError(error: string)

  /**
   * A connection attempt: refused, or every item the stream yields before
   * `next()` returns `None`. A server's clean close shows up as a final
   * Close frame and a dropped connection as a `FrameError`.
   */
  datatype Connection = Refused(error: string) | Opened(frames: seq<FrameResult>)

  /** What the single-message read makes of the frames: the first one, or a panic when there is none. */
  function FirstFrame(frames: seq<FrameResult>): (r: Run<Result<string, string>>)
    ensures |frames| == 0 <==> r == Aborted(NoFrame)
    ensures |frames| > 0 && frames[0].Frame? ==> r == Returned(Ok(frames[0].text))
    ensures |frames| > 0 && frames[0].FrameError? ==> r == Returned(Err(frames[0].error))
  {
    if |frames| == 0 then Aborted(NoFrame)
    else
      match frames[0]
      case Frame(t) => Returned(Ok(t))
      case FrameError(e) => Returned(Err(e))
  }

  /** `listen_to_execution`: key check, connection, then one frame. */
  function ListenToExecution(cfg: Config.Settings, address: string, ws: string -> Connection)
    : (r: Run<Result<string, string>>)
    ensures cfg.apiKey.None? ==> r == Aborted(ApiKeyMissing)
    ensures cfg.apiKey.Some? ==>
      match ws(ExecutionUrl(cfg.apiBase, address))
      case Refused(e) => r == Aborted(ConnectFailed(e))
      case Opened(frames) => r == FirstFrame(frames)
  {
    match WsAuthorization(cfg)
    case Aborted(cause) => Aborted(cause)
    case Returned(_) =>
      match ws(ExecutionUrl(cfg.apiBase, address))
      case Refused(e) => Aborted(ConnectFailed(e))
      case Opened(frames) => FirstFrame(frames)
  }

  /** The position of the first read error, or the number of frames when there is none. */
  function FirstError(frames: seq<FrameResult>): (k: nat)
    ensures k <= |frames|
    ensures forall j :: 0 <= j < k ==> frames[j].Frame?
    ensures k < |frames| ==> frames[k].FrameError?
    decreases |frames|
  {
    if |frames| == 0 || frames[0].FrameError? then 0
    else
      var k := 1 + FirstError(frames[1..]);
      assert forall j :: 1 <= j < |frames| ==> frames[j] == frames[1..][j - 1];
      k
  }

  /**
   * `items` is what the stream yields over `frames`: `Ok(text)` for each frame
   * in order up to the first read error, then that error, then nothing.
   */
  predicate IsStreamOf(frames: seq<FrameResult>, items: seq<Result<string, string>>) {
    var k := FirstError(frames);
    && |items| == (if k < |frames| then k + 1 else k)
    && (forall j :: 0 <= j < k ==> items[j] == Ok(frames[j].text))
    && (k < |frames| ==> items[k] == Err(frames[k].error))
  }

  /** The body of the `stream!` block: pull frames until the stream ends or a read fails. */
  method Drain(frames: seq<FrameResult>) returns (items: seq<Result<string, string>>)
    ensures IsStreamOf(frames, items)
  {
    items := [];
    var i := 0;
    while i < |frames|
      invariant i <= FirstError(frames)
      invariant |items| == i
      invariant forall j :: 0 <= j < i ==> items[j] == Ok(frames[j].text)
    {
      match frames[i] {
        case Frame(t) =>
          items := items + [Ok(t)];
        case FrameError(e) =>
          items := items + [Err(e)];
          return;
      }
      i := i + 1;
    }
  }

  /** `listen_to_execution_stream`: key check, connection, then the stream of frames. */
  method ListenToExecutionStream(cfg: Config.Settings, address: string, ws: string -> Connection)
    returns (r: Run<seq<Result<string, string>>>)
    ensures cfg.apiKey.None? ==> r == Aborted(ApiKeyMissing)
    ensures cfg.apiKey.Some? ==>
      match ws(ExecutionStreamUrl(cfg.apiBase, address))
      case Refused(e) => r == Aborted(ConnectFailed(e))
      case Opened(frames) => r.Returned? && IsStreamOf(frames, r.value)
  {
    var headers := WsAuthorization(cfg);
    if headers.Aborted? {
      return Aborted(headers.cause);
    }
    var url := ExecutionStreamUrl(cfg.apiBase, address);
    match ws(url) {
      case Refused(e) =>
        r := Aborted(ConnectFailed(e));
      case Opened(frames) =>
        var items := Drain(frames);
        r := Returned(items);
    }
  }

  /** Every item but the last is `Ok`; the last is an error exactly when some read failed. */
  lemma StreamStopsAfterFirstError(frames: seq<FrameResult>, items: seq<Result<string, string>>)
    requires IsStreamOf(frames, items)
    ensures forall j :: 0 <= j < |items| - 1 ==> items[j].Ok?
    ensures (exists j :: 0 <= j < |frames| && frames[j].FrameError?) <==> (|items| > 0 && items[|items| - 1].Err?)
  {
  }

  /** A stream that closes cleanly yields every frame's text, in order, and nothing else. */
  lemma CleanStreamYieldsEveryFrame(frames: seq<FrameResult>, items: seq<Result<string, string>>)
    requires forall j :: 0 <= j < |frames| ==> frames[j].Frame?
    requires IsStreamOf(frames, items)
    ensures |items| == |frames|
    ensures forall j :: 0 <= j < |frames| ==> items[j] == Ok(frames[j].text)
  {
  }

  /** The stream is determined by the frames. */
  lemma StreamIsDeterminate(frames: seq<FrameResult>, a: seq<Result<string, string>>, b: seq<Result<string, string>>)
    requires IsStreamOf(frames, a) && IsStreamOf(frames, b)
    ensures a == b
  {
  }

  /** On the same frames, the single read returns the first item the stream would yield. */
  lemma SingleReadIsFirstStreamItem(frames: seq<FrameResult>, items: seq<Result<string, string>>)
    requires |frames| > 0 && IsStreamOf(frames, items)
    ensures |items| > 0 && FirstFrame(frames) == Returned(items[0])
  {
  }
}
