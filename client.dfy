/** The request mediator: resolves and checks the API key, normalises the base URL,
    builds every request's URL and headers, sends it through the transport, and turns
    the response into a decoded body, raw bytes, or an error of the SDK's hierarchy. */
module Client {
  import opened Wrappers
  import opened Json
  import opened Exceptions

  const DEFAULT_BASE_URL := "https://api.batchrouter.ai"
  const KEY_PREFIX := "br_"
  const CLIENT_ID := "batchrouter-python/0.1.0"
  const KEY_REQUIRED := "API key is required"
  const MISSING_KEY := KEY_REQUIRED + ". Pass api_key parameter or set BATCHROUTER_API_KEY env var."
  const KEY_FORMAT_INTRO := "Invalid API key format. API keys "
  const KEY_FORMAT_RULE := "should start with '" + KEY_PREFIX + "'"
  const BAD_KEY_FORMAT := KEY_FORMAT_INTRO + KEY_FORMAT_RULE + "."

  const AUTHORIZATION := "Authorization"
  const CONTENT_TYPE := "Content-Type"
  const USER_AGENT := "User-Agent"
  const JSON_MEDIA_TYPE := "application/json"

  newtype byte = b: int | 0 <= b < 256

  /** An opened byte stream: the file opened from a path, or a file-like object the
      caller passed in (an opaque handle). */
  datatype Stream = OpenedFile(path: string) | Caller(handle: nat)

  /** One multipart file part: `(filename, stream, content type)`. */
  datatype FilePart = FilePart(filename: string, stream: Stream, contentType: string)

  /** What is handed to the transport: method, absolute URL, headers, query parameters,
      and a JSON body or form fields and file parts. */
  datatype HttpRequest = HttpRequest(
    verb: string,
    url: string,
    headers: map<string, string>,
    params: Option<map<string, int>>,
    json: Option<map<string, string>>,
    data: Option<map<string, string>>,
    files: Option<map<string, FilePart>>)

  /** What the transport hands back: the status code, the body decoded as JSON
      (None when it is not JSON), the body as text, and the raw body bytes. */
  datatype Response = Response(status: int, json: Option<Value>, text: string, content: seq<byte>)

  predicate StartsWith(s: string, prefix: string) {
    |prefix| <= |s| && s[..|prefix|] == prefix
  }

  predicate OccursAt(s: string, part: string, i: int) {
    0 <= i <= |s| - |part| && s[i..i + |part|] == part
  }

  predicate Contains(s: string, part: string) {
    exists i | 0 <= i <= |s| :: OccursAt(s, part, i)
  }

  // ---------------------------------------------------------------------------
  // Construction

  /** `api_key or os.environ.get("BATCHROUTER_API_KEY")`, with the environment's value injected. */
  function ChosenKey(apiKey: Option<string>, envKey: Option<string>): (k: Option<string>)
    ensures TruthyText(k) <==> TruthyText(apiKey) || TruthyText(envKey)
    ensures TruthyText(apiKey) ==> k == apiKey
    ensures !TruthyText(apiKey) ==> k == envKey
  {
    if TruthyText(apiKey) then apiKey else envKey
  }

  /** The key a client is built with, or the AuthenticationError construction raises. */
  function ResolveApiKey(apiKey: Option<string>, envKey: Option<string>): (r: Result<string, BatchRouterError>)
    ensures r.Ok? ==> StartsWith(r.value, KEY_PREFIX) && Some(r.value) == ChosenKey(apiKey, envKey)
    ensures !TruthyText(apiKey) && !TruthyText(envKey) ==> r == Err(AuthenticationError(Text(MISSING_KEY)))
    ensures TruthyText(ChosenKey(apiKey, envKey)) ==>
              (r.Ok? <==> StartsWith(ChosenKey(apiKey, envKey).value, KEY_PREFIX))
    ensures TruthyText(ChosenKey(apiKey, envKey)) && r.Err? ==> r == Err(AuthenticationError(Text(BAD_KEY_FORMAT)))
  {
    var key := ChosenKey(apiKey, envKey);
    if !TruthyText(key) then Err(AuthenticationError(Text(MISSING_KEY)))
    else if !StartsWith(key.value, KEY_PREFIX) then Err(AuthenticationError(Text(BAD_KEY_FORMAT)))
    else Ok(key.value)
  }

  /** The two construction messages say what the caller did wrong. */
  lemma KeyMessages()
    ensures StartsWith(MISSING_KEY, KEY_REQUIRED) && KEY_REQUIRED == "API key is required"
    ensures Contains(BAD_KEY_FORMAT, KEY_FORMAT_RULE) && KEY_FORMAT_RULE == "should start with 'br_'"
  {
    var n := |KEY_FORMAT_INTRO|;
    assert BAD_KEY_FORMAT[n..n + |KEY_FORMAT_RULE|] == KEY_FORMAT_RULE;
    assert OccursAt(BAD_KEY_FORMAT, KEY_FORMAT_RULE, n);
  }

  /** `s.rstrip("/")`. */
  function RStripSlashes(s: string): (r: string)
    ensures r <= s
    ensures r == [] || r[|r| - 1] != '/'
    ensures forall i :: |r| <= i < |s| ==> s[i] == '/'
  {
    if |s| > 0 && s[|s| - 1] == '/' then RStripSlashes(s[..|s| - 1]) else s
  }

  /** The three properties of `RStripSlashes` determine its result: any prefix of `s`
      that does not end in '/' and is followed only by '/' is that result. */
  lemma {:induction false} RStripSlashesUnique(s: string, t: string)
    requires t <= s
    requires t == [] || t[|t| - 1] != '/'
    requires forall i :: |t| <= i < |s| ==> s[i] == '/'
    ensures t == RStripSlashes(s)
  {
    if |t| < |s| {
      assert s[|s| - 1] == '/';
      RStripSlashesUnique(s[..|s| - 1], t);
    } else {
      assert t == s;
    }
  }

  /** Stripping twice strips nothing more. */
  lemma RStripSlashesIdempotent(s: string)
    ensures RStripSlashes(RStripSlashes(s)) == RStripSlashes(s)
  {
    var r := RStripSlashes(s);
    RStripSlashesUnique(r, r);
  }

  // ---------------------------------------------------------------------------
  // Requests

  /** `_get_headers()`. */
  function DefaultHeaders(apiKey: string): (h: map<string, string>)
    ensures h.Keys == {AUTHORIZATION, CONTENT_TYPE, USER_AGENT}
    ensures h[AUTHORIZATION] == "Bearer " + apiKey
    ensures h[CONTENT_TYPE] == JSON_MEDIA_TYPE
    ensures h[USER_AGENT] == CLIENT_ID
  {
    map[AUTHORIZATION := "Bearer " + apiKey, CONTENT_TYPE := JSON_MEDIA_TYPE, USER_AGENT := CLIENT_ID]
  }

  /** `if files:` — None and an empty dict are falsy. */
  predicate HasFiles(files: Option<map<string, FilePart>>) {
    files.Some? && files.value != map[]
  }

  /** The headers `_request` sends: the default headers, less Content-Type when there
      are file parts (the transport then sets the multipart boundary itself). */
  function SentHeaders(apiKey: string, files: Option<map<string, FilePart>>): (h: map<string, string>)
    ensures CONTENT_TYPE in h <==> !HasFiles(files)
    ensures h.Keys == DefaultHeaders(apiKey).Keys - (if HasFiles(files) then {CONTENT_TYPE} else {})
    ensures forall k :: k in h ==> h[k] == DefaultHeaders(apiKey)[k]
  {
    var h := DefaultHeaders(apiKey);
    if HasFiles(files) then h - {CONTENT_TYPE} else h
  }

  predicate IsSuccess(status: int) {
    200 <= status < 300
  }

  // ---------------------------------------------------------------------------
  // Error translation

  function Digit(d: int): char
    requires 0 <= d < 10
  {
    "0123456789"[d]
  }

  function NatDecimal(n: nat): (s: string)
    ensures s != [] && forall i :: 0 <= i < |s| ==> '0' <= s[i] <= '9'
  {
    if n < 10 then [Digit(n)] else NatDecimal(n / 10) + [Digit(n % 10)]
  }

  /** `f"{n}"` for an integer. */
  function Decimal(n: int): string {
    if n < 0 then "-" + NatDecimal(-n) else NatDecimal(n)
  }

  /** The number a string of decimal digits denotes. */
  function DigitsValue(s: string): int
    requires forall i :: 0 <= i < |s| ==> '0' <= s[i] <= '9'
  {
    if s == [] then 0 else 10 * DigitsValue(s[..|s| - 1]) + (s[|s| - 1] as int - '0' as int)
  }

  /** The status code can be read back from the "HTTP <code>" message. */
  lemma {:induction false} NatDecimalValue(n: nat)
    ensures DigitsValue(NatDecimal(n)) == n
  {
    var s := NatDecimal(n);
    if n >= 10 {
      NatDecimalValue(n / 10);
      assert s[..|s| - 1] == NatDecimal(n / 10);
    }
  }

  /** The message of the try block: `error_data.get("detail", str(error_data))`, or None
      when decoding fails or the decoded value has no `.get`. */
  function DetailMessage(json: Option<Value>): Option<Message> {
    match json
    case Some(Object(fields)) =>
      if "detail" !in fields then Some(Rendering(Object(fields)))
      else if fields["detail"].Str? then Some(Text(fields["detail"].s))
      else Some(Rendering(fields["detail"]))
    case _ => None
  }

  /** `_handle_error`'s message: `detail`, else the rendered object, else the text,
      else "HTTP <code>". */
  function ErrorMessage(response: Response): (m: Message)
    ensures response.json.Some? && response.json.value.Object? && "detail" in response.json.value.fields ==>
              var detail := response.json.value.fields["detail"];
              m == if detail.Str? then Text(detail.s) else Rendering(detail)
    ensures response.json.Some? && response.json.value.Object? && "detail" !in response.json.value.fields ==>
              m == Rendering(response.json.value)
    ensures (response.json.None? || !response.json.value.Object?) && response.text != "" ==>
              m == Text(response.text)
    ensures (response.json.None? || !response.json.value.Object?) && response.text == "" ==>
              m == Text("HTTP " + Decimal(response.status))
  {
    match DetailMessage(response.json)
    case Some(message) => message
    case None => Text(if response.text != "" then response.text else "HTTP " + Decimal(response.status))
  }

  /** A 500 with no JSON and no text reads "HTTP 500". */
  lemma EmptyServerErrorMessage(content: seq<byte>)
    ensures ErrorMessage(Response(500, None, "", content)) == Text("HTTP 500")
    ensures HandleResponse(Response(500, None, "", content)) == Err(Raised(ServerError(Text("HTTP 500"))))
  {
    assert NatDecimal(5) == "5";
    assert NatDecimal(50) == "50";
    assert NatDecimal(500) == "500";
  }

  /** The error `_handle_error` raises for a status code. */
  function ErrorFor(status: int, message: Message): (e: BatchRouterError)
    ensures e.message == message
    ensures e.kind == Authentication <==> status == 401
    ensures e.kind == NotFound <==> status == 404
    ensures e.kind == Validation <==> status == 422
    ensures e.kind == Server <==> status >= 500
    ensures e.kind == Server ==> e.statusCode == Some(500)
    ensures e.kind != Server ==> e.statusCode == Some(status)
    ensures e.statusCode == Some(status) <==> status <= 500
  {
    if status == 401 then AuthenticationError(message)
    else if status == 404 then NotFoundError(message)
    else if status == 422 then ValidationError(message)
    else if status >= 500 then ServerError(message)
    else BaseError(message, Some(status))
  }

  /** A 502 is raised as a ServerError whose status code reads 500. */
  lemma BadGatewayReadsAs500(message: Message)
    ensures ErrorFor(502, message).kind == Server
    ensures ErrorFor(502, message).statusCode == Some(500)
  {
  }

  /** What `_request` returns for a response (Python's None is `Null`). */
  function HandleResponse(response: Response): (r: Result<Value, SdkError>)
    ensures r.Ok? ==> IsSuccess(response.status)
    ensures !IsSuccess(response.status) ==> r == Err(Raised(ErrorFor(response.status, ErrorMessage(response))))
    ensures response.status == 204 ==> r == Ok(Null)
    ensures IsSuccess(response.status) && response.status != 204 ==>
              r == if response.json.Some? then Ok(response.json.value) else Err(UndecodableBody)
  {
    if !IsSuccess(response.status) then Err(Raised(ErrorFor(response.status, ErrorMessage(response))))
    else if response.status == 204 then Ok(Null)
    else match response.json
      case Some(v) => Ok(v)
      case None => Err(UndecodableBody)
  }

  /** What `_request_raw` returns: the raw bytes of every success, 204 included. */
  function HandleRawResponse(response: Response): (r: Result<seq<byte>, SdkError>)
    ensures r.Ok? <==> IsSuccess(response.status)
    ensures r.Ok? ==> r.value == response.content
    ensures r.Err? ==> r.error == Raised(ErrorFor(response.status, ErrorMessage(response)))
  {
    if !IsSuccess(response.status) then Err(Raised(ErrorFor(response.status, ErrorMessage(response))))
    else Ok(response.content)
  }

  /** The error a failed request surfaces: the translated one for every non-2xx status,
      and an SDK error is raised for no status in 200-299. */
  lemma {:induction false} ErrorOnlyOutsideSuccess(response: Response)
    ensures HandleResponse(response).Err? && HandleResponse(response).error.Raised? <==> !IsSuccess(response.status)
    ensures HandleRawResponse(response).Err? <==> !IsSuccess(response.status)
  {
  }

  // ---------------------------------------------------------------------------
  // The transport and the client

  /** The HTTP transport, abstracted: the remote end answers each request with a
      response, and every request sent is recorded in order. */
  class Transport {
    const server: HttpRequest -> Response
    var sent: seq<HttpRequest>

    constructor (server: HttpRequest -> Response)
      ensures this.server == server && sent == []
    {
      this.server := server;
      sent := [];
    }

    /** `httpx.Client.request`. */
    method Send(request: HttpRequest) returns (response: Response)
      modifies this
      ensures sent == old(sent) + [request]
      ensures response == server(request)
    {
      sent := sent + [request];
      response := server(request);
    }
  }

  /** A configured client: its API key, its base URL, and the transport it owns. */
  class BatchRouter {
    const apiKey: string
    const baseUrl: string
    const transport: Transport

    /** Every constructed client holds a key with the "br_" prefix and a base URL
        that does not end in '/'. */
    predicate Valid() {
      StartsWith(apiKey, KEY_PREFIX) && (baseUrl == [] || baseUrl[|baseUrl| - 1] != '/')
    }

    /** The assignments of `__init__` once the key has been checked. */
    constructor (apiKey: string, baseUrl: string, server: HttpRequest -> Response)
      requires StartsWith(apiKey, KEY_PREFIX)
      ensures Valid()
      ensures this.apiKey == apiKey && this.baseUrl == RStripSlashes(baseUrl)
      ensures fresh(transport) && transport.server == server && transport.sent == []
    {
      this.apiKey := apiKey;
      this.baseUrl := RStripSlashes(baseUrl);
      transport := new Transport(server);
    }

    /** The request `_request` hands to the transport. */
    function Outgoing(verb: string, path: string, params: Option<map<string, int>>, json: Option<map<string, string>>,
                      data: Option<map<string, string>>, files: Option<map<string, FilePart>>): HttpRequest
    {
      HttpRequest(verb, baseUrl + "/api" + path, SentHeaders(apiKey, files), params, json, data, files)
    }

    /** `_request`: sends one request and returns the decoded body. */
    method Request(verb: string, path: string, params: Option<map<string, int>> := None,
                   json: Option<map<string, string>> := None, data: Option<map<string, string>> := None,
                   files: Option<map<string, FilePart>> := None)
      returns (r: Result<Value, SdkError>)
      modifies transport
      ensures transport.sent == old(transport.sent) + [Outgoing(verb, path, params, json, data, files)]
      ensures r == HandleResponse(transport.server(Outgoing(verb, path, params, json, data, files)))
    {
      var url := baseUrl + "/api" + path;
      var headers := DefaultHeaders(apiKey);
      if HasFiles(files) {
        headers := headers - {CONTENT_TYPE};
      }
      var response := transport.Send(HttpRequest(verb, url, headers, params, json, data, files));
      r := HandleResponse(response);
    }

    /** `_request_raw`: sends one request with no parameters or body and returns the raw bytes. */
    method RequestRaw(verb: string, path: string) returns (r: Result<seq<byte>, SdkError>)
      modifies transport
      ensures transport.sent == old(transport.sent) + [Outgoing(verb, path, None, None, None, None)]
      ensures r == HandleRawResponse(transport.server(Outgoing(verb, path, None, None, None, None)))
    {
      var url := baseUrl + "/api" + path;
      var headers := DefaultHeaders(apiKey);
      var response := transport.Send(HttpRequest(verb, url, headers, None, None, None, None));
      r := HandleRawResponse(response);
    }
  }

  /** `BatchRouter(api_key, base_url)`, with the environment's key injected as `envKey`
      and the remote end as `server`. Construction fails, and no client or transport
      exists, exactly when the key cannot be resolved. */
  method Connect(apiKey: Option<string>, envKey: Option<string>, server: HttpRequest -> Response,
                 baseUrl: string := DEFAULT_BASE_URL)
    returns (r: Result<BatchRouter, BatchRouterError>)
    ensures ResolveApiKey(apiKey, envKey).Err? ==> r == Err(ResolveApiKey(apiKey, envKey).error)
    ensures ResolveApiKey(apiKey, envKey).Ok? ==>
              r.Ok? && fresh(r.value) && fresh(r.value.transport) && r.value.Valid()
              && r.value.apiKey == ResolveApiKey(apiKey, envKey).value
              && r.value.baseUrl == RStripSlashes(baseUrl)
              && r.value.transport.server == server && r.value.transport.sent == []
  {
    match ResolveApiKey(apiKey, envKey)
    case Err(e) =>
      r := Err(e);
    case Ok(key) =>
      var client := new BatchRouter(key, baseUrl, server);
      r := Ok(client);
  }
}
