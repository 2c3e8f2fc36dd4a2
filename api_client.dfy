/** The request client every service goes through (app/api/apiClient.ts).
    The network is a parameter: a `Server<T>` answers each `Request` it is
    handed with an `HttpResponse<T>`, whose success case already holds the
    outcome of decoding the JSON body. */
module ApiClient {
  import opened Wrappers
  import opened JsRuntime

  datatype HttpMethod = GET | POST

  /** The `credentials` mode of a `fetch` request. */
  datatype Credentials = Omit | SameOrigin | Include

  type Headers = map<string, string>

  const ContentType: string := "Content-Type"
  const JsonMediaType: string := "application/json"

  /** The search body the services post. Fields listed in `nullFields` are
      sent with an explicit `null`; `organismTypes` is sent only when set.
      The request carries this value; its `JSON.stringify` text is abstract. */
  datatype SearchParams = SearchParams(
    page: int,
    pageSize: int,
    sort: string,
    organismTypes: Option<seq<string>>,
    nullFields: seq<string>)

  /** The options a caller passes to `fetchApi`; `None` is an omitted field
      (and, for `body`, also a falsy one). */
  datatype ApiRequestOptions = ApiRequestOptions(
    verb: HttpMethod,  // the source's `method`
    headers: Option<Headers>,
    body: Option<SearchParams>,
    credentials: Option<Credentials>)

  /** The `RequestInit` handed to `fetch`. */
  datatype RequestInit = RequestInit(
    verb: HttpMethod,  // the source's `method`
    headers: Headers,
    credentials: Credentials,
    body: Option<SearchParams>)

  datatype Request = Request(url: string, init: RequestInit)

  /** What `fetch` and `response.json()` produce: a 2xx response and the
      outcome of decoding its body, a non-2xx response with the
      re-serialised error body (`None` when that body is not JSON), or a
      network failure. */
  datatype HttpResponse<T> =
    | Ok(json: Result<T, JsError>)
    | HttpErr(status: nat, statusText: string, errorBody: Option<string>)
    | NetErr(cause: JsError)

  type Server<T> = Request -> HttpResponse<T>

  /** `getBaseUrl()`: the configured base URL, `''` when it is unset. */
  function BaseUrl(config: Option<string>): (r: string)
    ensures config.Some? ==> r == config.value
    ensures config.None? ==> r == ""
  {
    // `API_BASE_URL || ''`: an empty configured value is returned as it is
    if config.Some? then config.value else ""
  }

  /** `${API_BASE_URL}${endpoint}`: the raw constant, so an unset base
      renders as the text "undefined". */
  function RequestUrl(config: Option<string>, endpoint: string): (r: string)
    ensures config.Some? ==> r == config.value + endpoint
    ensures config.None? ==> r == "undefined" + endpoint
  {
    match config
    case Some(base) => base + endpoint
    case None => "undefined" + endpoint
  }

  /** The request URL agrees with `getBaseUrl()` + endpoint exactly when a
      base URL is configured. */
  lemma RequestUrlVersusBaseUrl(config: Option<string>, endpoint: string)
    ensures RequestUrl(config, endpoint) == BaseUrl(config) + endpoint <==> config.Some?
  {
    if config.None? {
      assert |RequestUrl(config, endpoint)| != |BaseUrl(config) + endpoint|;
    }
  }

  /** `{ 'Content-Type': 'application/json', ...headers }`. */
  function MergeHeaders(headers: Headers): (r: Headers)
    ensures r.Keys == headers.Keys + {ContentType}
    ensures forall k :: k in headers ==> r[k] == headers[k]
    ensures ContentType !in headers ==> r[ContentType] == JsonMediaType
  {
    map[ContentType := JsonMediaType] + headers
  }

  /** The `RequestInit` that `fetchApi` builds from its options. */
  function RequestOptions(options: ApiRequestOptions): (r: RequestInit)
    ensures r.verb == options.verb
    ensures r.headers == MergeHeaders(if options.headers.Some? then options.headers.value else map[])
    ensures options.credentials.None? ==> r.credentials == SameOrigin
    ensures options.credentials.Some? ==> r.credentials == options.credentials.value
    ensures r.body.Some? <==> options.body.Some? && options.verb == POST
    ensures r.body.Some? ==> r.body == options.body
  {
    var headers := if options.headers.Some? then options.headers.value else map[];
    var credentials := if options.credentials.Some? then options.credentials.value else SameOrigin;
    RequestInit(
      options.verb,
      MergeHeaders(headers),
      credentials,
      if options.body.Some? && options.verb == POST then options.body else None)
  }

  /** The construction of `requestOptions` as the source performs it: the
      object literal first, then the body assigned only for a POST. */
  method BuildRequestOptions(options: ApiRequestOptions) returns (r: RequestInit)
    ensures r == RequestOptions(options)
  {
    var headers: Headers := map[];
    if options.headers.Some? {
      headers := options.headers.value;
    }
    var credentials := SameOrigin;
    if options.credentials.Some? {
      credentials := options.credentials.value;
    }
    r := RequestInit(options.verb, map[ContentType := JsonMediaType] + headers, credentials, None);
    if options.body.Some? && options.verb == POST {
      r := r.(body := options.body);
    }
  }

  const ErrorPrefix: string := "API Error: "

  /** The re-serialised error body, `{}` when the body is not JSON. */
  function ErrorBodyText(errorBody: Option<string>): (t: string)
    ensures errorBody.Some? ==> t == errorBody.value
    ensures errorBody.None? ==> t == "{}"
  {
    if errorBody.Some? then errorBody.value else "{}"
  }

  /** `API Error: {status} {statusText} - {JSON.stringify(errorData)}`: the
      prefix, then the status digits and a space, and the body text last. */
  function ErrorMessage(status: nat, statusText: string, errorBody: Option<string>): (m: string)
    ensures |m| >= |ErrorPrefix| + |NatToString(status)| + 1 + |ErrorBodyText(errorBody)|
    ensures m[..|ErrorPrefix|] == ErrorPrefix
    ensures m[|ErrorPrefix|..|ErrorPrefix| + |NatToString(status)|] == NatToString(status)
    ensures m[|ErrorPrefix| + |NatToString(status)|] == ' '
    ensures m[|m| - |ErrorBodyText(errorBody)|..] == ErrorBodyText(errorBody)
  {
    var digits, tail := NatToString(status), " " + statusText + " - " + ErrorBodyText(errorBody);
    var m := ErrorPrefix + digits + tail;
    assert m == ErrorPrefix + (digits + (" " + statusText + " - ") + ErrorBodyText(errorBody));
    m
  }

  /** A 404 whose body is not JSON. */
  lemma ErrorMessageExample()
    ensures ErrorMessage(404, "Not Found", None) == "API Error: 404 Not Found - {}"
  {
    assert NatToString(404) == NatToString(40) + [DigitChar(4)] == "404";
  }

  /** The HTTP status can be read back from the error message: two
      non-OK responses with different statuses never give the same message. */
  lemma ErrorMessageDeterminesStatus(s1: nat, t1: string, b1: Option<string>, s2: nat, t2: string, b2: Option<string>)
    requires ErrorMessage(s1, t1, b1) == ErrorMessage(s2, t2, b2)
    ensures s1 == s2
  {
    var m := ErrorMessage(s1, t1, b1);
    var a, b := NatToString(s1), NatToString(s2);
    var p := |ErrorPrefix|;
    // both digit runs start after the prefix and end at the first space
    forall i | 0 <= i < |a|
      ensures m[p + i] == a[i]
    {
      assert m[p..p + |a|][i] == m[p + i];
    }
    forall i | 0 <= i < |b|
      ensures m[p + i] == b[i]
    {
      assert m[p..p + |b|][i] == m[p + i];
    }
    assert |a| == |b|;
    assert a == m[p..p + |a|] == b;
    NatToStringInjective(s1, s2);
  }

  /** The outcome handling of `fetchApi`: a 2xx response yields its decoded
      body (a decoding error is rethrown), a non-OK status raises the
      formatted error, a network failure is rethrown as it is. Nothing is
      converted into a value. */
  function Settle<T>(response: HttpResponse<T>): (r: Result<T, JsError>)
    ensures r.Success? <==> response.Ok? && response.json.Success?
    ensures response.Ok? ==> r == response.json
    ensures response.HttpErr? ==>
      r == Failure(JsError(ErrorMessage(response.status, response.statusText, response.errorBody)))
    ensures response.NetErr? ==> r == Failure(response.cause)
  {
    match response
    case Ok(json) => json
    case HttpErr(status, statusText, errorBody) => Failure(JsError(ErrorMessage(status, statusText, errorBody)))
    case NetErr(cause) => Failure(cause)
  }

  function MakeRequest(config: Option<string>, endpoint: string, options: ApiRequestOptions): Request
  {
    Request(RequestUrl(config, endpoint), RequestOptions(options))
  }

  /** `fetchApi(endpoint, options)` against the server `server`. */
  function FetchApi<T>(config: Option<string>, endpoint: string, options: ApiRequestOptions, server: Server<T>): (r: Result<T, JsError>)
    ensures var response := server(Request(RequestUrl(config, endpoint), RequestOptions(options)));
      && (r.Success? <==> response.Ok? && response.json.Success?)
      && r == Settle(response)
  {
    Settle(server(MakeRequest(config, endpoint, options)))
  }

  function GetOptions(headers: Option<Headers>): ApiRequestOptions
  {
    ApiRequestOptions(GET, headers, None, None)
  }

  function PostOptions(body: Option<SearchParams>, headers: Option<Headers>): ApiRequestOptions
  {
    ApiRequestOptions(POST, headers, body, None)
  }

  /** `get(endpoint, headers)`. */
  function Get<T>(config: Option<string>, endpoint: string, headers: Option<Headers>, server: Server<T>): (r: Result<T, JsError>)
    ensures var init := RequestInit(GET, MergeHeaders(if headers.Some? then headers.value else map[]), SameOrigin, None);
      r == Settle(server(Request(RequestUrl(config, endpoint), init)))
  {
    FetchApi(config, endpoint, GetOptions(headers), server)
  }

  /** `post(endpoint, body, headers)`. */
  function Post<T>(config: Option<string>, endpoint: string, body: Option<SearchParams>, headers: Option<Headers>, server: Server<T>): (r: Result<T, JsError>)
    ensures var init := RequestInit(POST, MergeHeaders(if headers.Some? then headers.value else map[]), SameOrigin, body);
      r == Settle(server(Request(RequestUrl(config, endpoint), init)))
  {
    FetchApi(config, endpoint, PostOptions(body, headers), server)
  }

  /** A GET never carries a body, is sent same-origin with the JSON content
      type unless the caller overrides that header. */
  lemma GetRequestShape(config: Option<string>, endpoint: string, headers: Option<Headers>)
    ensures var req := MakeRequest(config, endpoint, GetOptions(headers));
      && req.url == RequestUrl(config, endpoint)
      && req.init.verb == GET
      && req.init.body.None?
      && req.init.credentials == SameOrigin
      && (headers.None? ==> req.init.headers == map[ContentType := JsonMediaType])
  {
  }

  /** A POST carries exactly the body it is given. */
  lemma PostRequestShape(config: Option<string>, endpoint: string, body: Option<SearchParams>, headers: Option<Headers>)
    ensures var req := MakeRequest(config, endpoint, PostOptions(body, headers));
      && req.url == RequestUrl(config, endpoint)
      && req.init.verb == POST
      && req.init.body == body
      && req.init.credentials == SameOrigin
  {
  }

  /** A caller's header overrides the default of the same name. */
  lemma CallerHeaderWins(headers: Headers, key: string)
    requires key in headers
    ensures MergeHeaders(headers)[key] == headers[key]
  {
  }
}
