/** The REST client of `lib/services/client-api.service.ts` and its
    server-side twin `lib/services/api.service.ts`. Both files define the same
    `request` method over a base URL, the same `get`/`post`/`put`/`delete`
    wrappers and the same resource services; the model defines them once, as
    members of `ApiClient`, and `ClientApiService`/`ServerApiService` build the
    two instances from their environment variables. `fetch` is a parameter:
    the transport, a function from URL and request options to what the
    network returned. */
module ApiService {
  import opened Options
  import opened JsValues
  import opened Decimal

  /** What `response.json()` produced: a parsed value, or the error it rejected with. */
  datatype ParsedBody = Parsed(json: Json) | Unparseable(parseError: Thrown)

  datatype HttpResponse = HttpResponse(status: int, ok: bool, body: ParsedBody)

  /** What `await fetch(url, init)` did. */
  datatype FetchOutcome = Responded(response: HttpResponse) | FetchFailed(thrown: Thrown)

  /** The parts of `RequestInit` the client sets; `body` is the value before `JSON.stringify`. */
  datatype RequestInit = RequestInit(httpMethod: string, body: Option<Json>)

  type Transport = (string, RequestInit) -> FetchOutcome

  /** `ApiResponse<T>` as `request` returns it. */
  datatype ApiResponse<T> = Success(data: T) | Failure(error: Json)

  /** The environment variables the two services read their base URL from. */
  datatype Env = Env(nextPublicApiUrl: string, apiUrl: string)

  predicate StartsWithSlash(endpoint: string) {
    |endpoint| > 0 && endpoint[0] == '/'
  }

  /** `${baseUrl}${endpoint.startsWith('/') ? endpoint : `/${endpoint}`}`. */
  function JoinUrl(baseUrl: string, endpoint: string): string {
    if StartsWithSlash(endpoint) then baseUrl + endpoint else baseUrl + "/" + endpoint
  }

  /** The URL is the base URL, one slash, then the endpoint without the slash it
      may already start with; so an endpoint with and without its leading slash
      name the same URL. */
  lemma JoinUrlShape(baseUrl: string, endpoint: string)
    ensures var url := JoinUrl(baseUrl, endpoint);
      && |url| > |baseUrl|
      && url[..|baseUrl|] == baseUrl
      && url[|baseUrl|] == '/'
      && url[|baseUrl| + 1..] == (if StartsWithSlash(endpoint) then endpoint[1..] else endpoint)
    ensures !StartsWithSlash(endpoint) ==> JoinUrl(baseUrl, endpoint) == JoinUrl(baseUrl, "/" + endpoint)
  {
    var url := JoinUrl(baseUrl, endpoint);
    if StartsWithSlash(endpoint) {
      assert url[|baseUrl| + 1..] == endpoint[1..];
    } else {
      assert url[|baseUrl| + 1..] == endpoint;
    }
  }

  function HttpErrorText(status: int): string {
    "HTTP error! status: " + IntToString(status)
  }

  /** The `catch` clause: an `Error`'s message, or a fixed text for anything else thrown. */
  function CaughtMessage(thrown: Thrown): Json {
    match thrown
    case ErrorObject(message) => JStr(message)
    case OtherThrown => JStr("Network error occurred")
  }

  /** A non-ok response: the parsed body, or `{ error: 'HTTP error! status: N' }`
      when it does not parse, then `error || message || 'HTTP error! status: N'`. */
  function NonOkResult(response: HttpResponse): ApiResponse<Json> {
    var fallback := HttpErrorText(response.status);
    var errorData: Value :=
      match response.body
      case Parsed(j) => Some(j)
      case Unparseable(_) => Some(JObj(map["error" := JStr(fallback)]));
    match Prop(errorData, "error")
    case Throws(t) => Failure(CaughtMessage(t))
    case Returns(error) =>
      match Prop(errorData, "message")
      case Throws(t) => Failure(CaughtMessage(t))
      case Returns(message) => Failure(OrElse(Or(error, message), JStr(fallback)))
  }

  /** An ok response: a body that does not parse is caught; `success === false`
      becomes a failure with `error || 'Unknown error occurred'`; anything else
      is a success carrying `data.data || data`. */
  function OkResult(response: HttpResponse): ApiResponse<Json> {
    match response.body
    case Unparseable(t) => Failure(CaughtMessage(t))
    case Parsed(j) =>
      match Prop(Some(j), "success")
      case Throws(t) => Failure(CaughtMessage(t))
      case Returns(success) =>
        if success == Some(JBool(false)) then
          match Prop(Some(j), "error")
          case Throws(t) => Failure(CaughtMessage(t))
          case Returns(error) => Failure(OrElse(error, JStr("Unknown error occurred")))
        else
          match Prop(Some(j), "data")
          case Throws(t) => Failure(CaughtMessage(t))
          case Returns(data) => Success(OrElse(data, j))
  }

  /** The body of `request` after `fetch`: every outcome, thrown ones included,
      becomes an `ApiResponse`. */
  function Normalize(outcome: FetchOutcome): ApiResponse<Json> {
    match outcome
    case FetchFailed(t) => Failure(CaughtMessage(t))
    case Responded(r) => if !r.ok then NonOkResult(r) else OkResult(r)
  }

  /** The envelope reports success exactly for an ok response whose body parses
      to something other than `null` and whose `success` is not `false`. */
  lemma NormalizeSuccessIff(outcome: FetchOutcome)
    ensures Normalize(outcome).Success? <==>
      && outcome.Responded?
      && outcome.response.ok
      && outcome.response.body.Parsed?
      && outcome.response.body.json != JNull
      && Field(outcome.response.body.json, "success") != Some(JBool(false))
  {
  }

  /** A non-ok response fails with the body's `error`, else its `message`, else
      "HTTP error! status: N"; the error is never falsy. */
  lemma NonOkErrorRule(response: HttpResponse)
    requires !response.ok
    ensures response.body.Unparseable? ==>
      Normalize(Responded(response)) == Failure(JStr(HttpErrorText(response.status)))
    ensures response.body.Parsed? && response.body.json != JNull ==>
      var j := response.body.json;
      Normalize(Responded(response)) ==
        Failure(OrElse(Or(Field(j, "error"), Field(j, "message")), JStr(HttpErrorText(response.status))))
    ensures response.body.Parsed? && response.body.json != JNull ==>
      Truthy(Some(Normalize(Responded(response)).error))
  {
    var text := HttpErrorText(response.status);
    assert Truthy(Some(JStr(text))) by { assert |text| > 0; }
  }

  /** An ok body with `success: false` fails with its `error`, else 'Unknown error occurred'. */
  lemma SuccessFalseRule(response: HttpResponse)
    requires response.ok && response.body.Parsed? && response.body.json != JNull
    requires Field(response.body.json, "success") == Some(JBool(false))
    ensures Normalize(Responded(response)) ==
      Failure(OrElse(Field(response.body.json, "error"), JStr("Unknown error occurred")))
  {
  }

  /** Otherwise the data is the body's `data` when truthy, else the whole body. */
  lemma UnwrapRule(response: HttpResponse)
    requires response.ok && response.body.Parsed? && response.body.json != JNull
    requires Field(response.body.json, "success") != Some(JBool(false))
    ensures var j := response.body.json;
      Normalize(Responded(response)) == Success(if Truthy(Field(j, "data")) then Field(j, "data").value else j)
  {
  }

  /** Thrown errors never escape: a failed `fetch`, a body that does not parse
      and a `null` body all become failures with the caught message. */
  lemma CaughtRule(outcome: FetchOutcome)
    ensures outcome.FetchFailed? ==> Normalize(outcome) == Failure(CaughtMessage(outcome.thrown))
    ensures outcome.Responded? && outcome.response.ok && outcome.response.body.Unparseable? ==>
      Normalize(outcome) == Failure(CaughtMessage(outcome.response.body.parseError))
    ensures outcome.Responded? && outcome.response.ok && outcome.response.body == Parsed(JNull) ==>
      Normalize(outcome) == Failure(JStr(NullAccessMessage(Some(JNull), "success")))
  {
  }

  /** One instance of `ClientApiService`/`ApiService`. */
  datatype ApiClient = ApiClient(baseUrl: string) {

    /** `request(endpoint, options)`. */
    function Request(endpoint: string, init: RequestInit, transport: Transport): ApiResponse<Json> {
      Normalize(transport(JoinUrl(baseUrl, endpoint), init))
    }

    function Get(endpoint: string, transport: Transport): ApiResponse<Json> {
      Request(endpoint, RequestInit("GET", None), transport)
    }

    /** `post`: the body is sent only when the data is truthy. */
    function Post(endpoint: string, data: Value, transport: Transport): ApiResponse<Json> {
      Request(endpoint, RequestInit("POST", if Truthy(data) then data else None), transport)
    }

    function Put(endpoint: string, data: Json, transport: Transport): ApiResponse<Json> {
      Request(endpoint, RequestInit("PUT", Some(data)), transport)
    }

    function Delete(endpoint: string, transport: Transport): ApiResponse<Json> {
      Request(endpoint, RequestInit("DELETE", None), transport)
    }
  }

  /** `request` consults the network once, at the joined URL with the given
      options: transports that agree there give the same result. */
  lemma RequestUsesJoinedUrl(client: ApiClient, endpoint: string, init: RequestInit, t1: Transport, t2: Transport)
    requires t1(JoinUrl(client.baseUrl, endpoint), init) == t2(JoinUrl(client.baseUrl, endpoint), init)
    ensures client.Request(endpoint, init, t1) == client.Request(endpoint, init, t2)
  {
  }

  /** `post` sends a body exactly when it is given a truthy value. */
  lemma PostBodyRule(client: ApiClient, endpoint: string, data: Value, transport: Transport)
    ensures Truthy(data) ==>
      client.Post(endpoint, data, transport) ==
        Normalize(transport(JoinUrl(client.baseUrl, endpoint), RequestInit("POST", data)))
    ensures !Truthy(data) ==>
      client.Post(endpoint, data, transport) ==
        Normalize(transport(JoinUrl(client.baseUrl, endpoint), RequestInit("POST", None)))
  {
  }

  /** The instance `client-api.service.ts` exports, over `NEXT_PUBLIC_API_URL`. */
  function ClientApiService(env: Env): (c: ApiClient)
    ensures c.baseUrl == env.nextPublicApiUrl
  {
    ApiClient(env.nextPublicApiUrl)
  }

  /** The instance `api.service.ts` exports, over `API_URL`; it is the client
      instance whenever the two variables agree. */
  function ServerApiService(env: Env): (c: ApiClient)
    ensures c.baseUrl == env.apiUrl
    ensures env.apiUrl == env.nextPublicApiUrl ==> c == ClientApiService(env)
  {
    ApiClient(env.apiUrl)
  }

  /** The server instance's `request` joins onto `API_URL` and folds the
      outcome by the same rules as the client's; on equal base URLs the two
      give the same result for every call. */
  lemma ServerRequestRules(env: Env, endpoint: string, init: RequestInit, transport: Transport)
    ensures ServerApiService(env).Request(endpoint, init, transport) ==
      Normalize(transport(JoinUrl(env.apiUrl, endpoint), init))
    ensures env.apiUrl == env.nextPublicApiUrl ==>
      ServerApiService(env).Request(endpoint, init, transport) == ClientApiService(env).Request(endpoint, init, transport)
  {
  }

  // The resource services, the same in both files.

  function GetWebhooks(client: ApiClient, transport: Transport): ApiResponse<Json> {
    client.Get("/api/paths", transport)
  }

  function GetWebhook(client: ApiClient, pathId: string, transport: Transport): ApiResponse<Json> {
    client.Get("/api/paths/" + pathId, transport)
  }

  /** `createWebhook({ path_id })`: the body is `{ path_id }`, which
      `JSON.stringify` turns into `{}` when the id is absent. */
  function CreateWebhook(client: ApiClient, pathId: Option<string>, transport: Transport): ApiResponse<Json> {
    var id: Value := if pathId.Some? then Some(JStr(pathId.value)) else None;
    client.Post("/api/paths", Some(ObjectOf("path_id", id)), transport)
  }

  function DeleteWebhook(client: ApiClient, pathId: string, transport: Transport): ApiResponse<Json> {
    client.Delete("/api/paths/" + pathId, transport)
  }

  function GetStats(client: ApiClient, transport: Transport): ApiResponse<Json> {
    client.Get("/api/dashboard/stats", transport)
  }

  function GetRequestDetails(client: ApiClient, pathId: string, requestId: string, transport: Transport): ApiResponse<Json> {
    client.Get("/api/paths/" + pathId + "/logs/" + requestId, transport)
  }

  lemma JoinUrlOfPath(baseUrl: string, prefix: string, rest: string)
    requires StartsWithSlash(prefix)
    ensures JoinUrl(baseUrl, prefix + rest) == baseUrl + prefix + rest
  {
    assert (prefix + rest)[0] == prefix[0];
  }

  /** Each service calls the network once, at the base URL followed by its
      path, with its method; `createWebhook` always sends a body, carrying
      `path_id` exactly when one is given. */
  lemma ServiceEndpoints(client: ApiClient, pathId: string, requestId: string, newPathId: Option<string>, transport: Transport)
    ensures GetWebhooks(client, transport) ==
      Normalize(transport(client.baseUrl + "/api/paths", RequestInit("GET", None)))
    ensures GetWebhook(client, pathId, transport) ==
      Normalize(transport(client.baseUrl + "/api/paths/" + pathId, RequestInit("GET", None)))
    ensures DeleteWebhook(client, pathId, transport) ==
      Normalize(transport(client.baseUrl + "/api/paths/" + pathId, RequestInit("DELETE", None)))
    ensures GetStats(client, transport) ==
      Normalize(transport(client.baseUrl + "/api/dashboard/stats", RequestInit("GET", None)))
    ensures GetRequestDetails(client, pathId, requestId, transport) ==
      Normalize(transport(client.baseUrl + "/api/paths/" + pathId + "/logs/" + requestId, RequestInit("GET", None)))
    ensures exists body: Json ::
      && CreateWebhook(client, newPathId, transport) ==
           Normalize(transport(client.baseUrl + "/api/paths", RequestInit("POST", Some(body))))
      && body.JObj?
      && ("path_id" in body.fields <==> newPathId.Some?)
      && (newPathId.Some? ==> body.fields["path_id"] == JStr(newPathId.value))
  {
    JoinUrlOfPath(client.baseUrl, "/api/paths/", pathId);
    var details := "/api/paths/" + pathId + "/logs/" + requestId;
    assert details == "/api/paths/" + (pathId + "/logs/" + requestId);
    JoinUrlOfPath(client.baseUrl, "/api/paths/", pathId + "/logs/" + requestId);
    assert JoinUrl(client.baseUrl, details) == client.baseUrl + details;
    assert client.baseUrl + details == client.baseUrl + "/api/paths/" + pathId + "/logs/" + requestId;
    var id: Value := if newPathId.Some? then Some(JStr(newPathId.value)) else None;
    var body := ObjectOf("path_id", id);
    assert CreateWebhook(client, newPathId, transport) ==
      Normalize(transport(client.baseUrl + "/api/paths", RequestInit("POST", Some(body))));
  }

  // Logs: the query string and the pagination mapping of `getLogs`.

  /** `GetLogsOptions`. Only `limit`, `offset` and `include_body` reach the query string. */
  datatype LogsOptions = LogsOptions(
    limit: Option<int>,
    offset: Option<int>,
    includeBody: Option<bool>,
    httpMethod: Option<string>,
    dateFrom: Option<string>,
    dateTo: Option<string>,
    search: Option<string>)

  /** A number option is truthy: present and not 0. */
  predicate NumberSet(n: Option<int>) {
    n.Some? && n.value != 0
  }

  /** The parameters `getLogs` appends, in order. */
  function LogsParams(options: LogsOptions): seq<(string, string)> {
    (if NumberSet(options.limit) then [("limit", IntToString(options.limit.value))] else [])
    + (if NumberSet(options.offset) then [("offset", IntToString(options.offset.value))] else [])
    + (if options.includeBody.Some? then [("include_body", if options.includeBody.value then "true" else "false")] else [])
  }

  /** `URLSearchParams.toString()` for the parameters used here, whose keys and
      values need no percent-encoding. */
  function Serialize(params: seq<(string, string)>): string
    decreases |params|
  {
    if params == [] then ""
    else if |params| == 1 then params[0].0 + "=" + params[0].1
    else params[0].0 + "=" + params[0].1 + "&" + Serialize(params[1..])
  }

  lemma SerializeEmpty(params: seq<(string, string)>)
    ensures Serialize(params) == "" <==> params == []
  {
    if params != [] {
      assert |Serialize(params)| > 0 by {
        if |params| == 1 {
          assert |params[0].0 + "=" + params[0].1| > 0;
        } else {
          assert |params[0].0 + "=" + params[0].1 + "&" + Serialize(params[1..])| > 0;
        }
      }
    }
  }

  /** `limit` and `offset` are sent exactly when truthy, so an offset of 0 is
      not sent; `include_body` exactly when defined; nothing else is ever sent,
      so the method, search and date filters do not reach the server. */
  lemma LogsParamsSpec(options: LogsOptions, other: LogsOptions)
    ensures var ps := LogsParams(options);
      && (forall v :: ("limit", v) in ps <==> NumberSet(options.limit) && v == IntToString(options.limit.value))
      && (forall v :: ("offset", v) in ps <==> NumberSet(options.offset) && v == IntToString(options.offset.value))
      && (forall v :: ("include_body", v) in ps <==>
            options.includeBody.Some? && v == (if options.includeBody.value then "true" else "false"))
      && (forall p :: p in ps ==> p.0 == "limit" || p.0 == "offset" || p.0 == "include_body")
    ensures options.offset == Some(0) ==> forall p :: p in LogsParams(options) ==> p.0 != "offset"
    ensures other.limit == options.limit && other.offset == options.offset && other.includeBody == options.includeBody ==>
      LogsParams(other) == LogsParams(options)
  {
  }

  /** The class behind `new URLSearchParams()`, updated by `append`. */
  class SearchParams {
    var pairs: seq<(string, string)>

    constructor()
      ensures pairs == []
    {
      pairs := [];
    }

    method Append(key: string, value: string)
      modifies this
      ensures pairs == old(pairs) + [(key, value)]
    {
      pairs := pairs + [(key, value)];
    }

    function ToString(): string
      reads this
    {
      Serialize(pairs)
    }
  }

  /** `/api/paths/${pathId}/logs`, followed by `?` and the query only when the query is not empty. */
  function LogsPath(pathId: string, query: string): (endpoint: string)
    ensures query == "" ==> endpoint == "/api/paths/" + pathId + "/logs"
    ensures query != "" ==> endpoint == "/api/paths/" + pathId + "/logs" + "?" + query
  {
    "/api/paths/" + pathId + "/logs" + (if query != "" then "?" + query else "")
  }

  /** The endpoint `getLogs` builds by appending to a fresh `URLSearchParams`. */
  method LogsEndpoint(pathId: string, options: LogsOptions) returns (endpoint: string)
    ensures endpoint == LogsPath(pathId, Serialize(LogsParams(options)))
  {
    var queryParams := new SearchParams();
    if NumberSet(options.limit) {
      queryParams.Append("limit", IntToString(options.limit.value));
    }
    if NumberSet(options.offset) {
      queryParams.Append("offset", IntToString(options.offset.value));
    }
    if options.includeBody.Some? {
      queryParams.Append("include_body", if options.includeBody.value then "true" else "false");
    }
    assert queryParams.pairs == LogsParams(options);
    var query := queryParams.ToString();
    endpoint := LogsPath(pathId, query);
  }

  /** The pagination `getLogs` returns; its fields are copied from the response. */
  datatype Pagination = Pagination(total: Value, limit: Value, offset: Value, hasMore: bool)

  datatype LogsResponse =
    | LogsSuccess(logs: Value, pagination: Pagination)
    | LogsFailure(error: Json)

  /** `offset + limit < total` on numbers. */
  function HasMore(offset: Value, limit: Value, total: Value): bool {
    (offset.Some? && offset.value.JNum? && limit.Some? && limit.value.JNum? && total.Some? && total.value.JNum?)
    && offset.value.n + limit.value.n < total.value.n
  }

  function ErrorOf(result: ApiResponse<Json>): Value {
    if result.Failure? then Some(result.error) else None
  }

  /** The mapping of `getLogs` from the envelope to its result. The property
      reads are evaluated in source order, so a missing `pagination` throws at
      its `total`. */
  function MapLogs(result: ApiResponse<Json>): Outcome<LogsResponse> {
    if result.Success? && Truthy(Some(result.data)) then
      var data := Some(result.data);
      match Prop(data, "requests")
      case Throws(t) => Throws(t)
      case Returns(requests) =>
        match Prop(data, "pagination")
        case Throws(t) => Throws(t)
        case Returns(pagination) =>
          match Prop(pagination, "total")
          case Throws(t) => Throws(t)
          case Returns(total) =>
            match Prop(pagination, "limit")
            case Throws(t) => Throws(t)
            case Returns(limit) =>
              match Prop(pagination, "offset")
              case Throws(t) => Throws(t)
              case Returns(offset) =>
                Returns(LogsSuccess(requests, Pagination(total, limit, offset, HasMore(offset, limit, total))))
    else
      Returns(LogsFailure(OrElse(ErrorOf(result), JStr("Failed to fetch logs"))))
  }

  /** A successful response with a `pagination` object yields its `requests` as
      the logs and copies total, limit and offset unchanged; `has_more` holds
      exactly when the numbers satisfy `offset + limit < total`. */
  lemma LogsSuccessRule(data: Json)
    requires Truthy(Some(data)) && data.JObj? && "pagination" in data.fields
    requires data.fields["pagination"].JObj?
    ensures var page := data.fields["pagination"];
      var total, limit, offset := Field(page, "total"), Field(page, "limit"), Field(page, "offset");
      && MapLogs(Success(data)) ==
           Returns(LogsSuccess(Field(data, "requests"), Pagination(total, limit, offset, HasMore(offset, limit, total))))
      && (offset.Some? && offset.value.JNum? && limit.Some? && limit.value.JNum? && total.Some? && total.value.JNum? ==>
            (HasMore(offset, limit, total) <==> offset.value.n + limit.value.n < total.value.n))
  {
  }

  /** A failed response, or a successful one with falsy data, yields a failure
      with the upstream error or else 'Failed to fetch logs'; a truthy payload
      without a `pagination` object throws. */
  lemma LogsFailureRule(result: ApiResponse<Json>)
    ensures result.Failure? ==>
      MapLogs(result) == Returns(LogsFailure(OrElse(Some(result.error), JStr("Failed to fetch logs"))))
    ensures result.Success? && !Truthy(Some(result.data)) ==>
      MapLogs(result) == Returns(LogsFailure(JStr("Failed to fetch logs")))
    ensures result.Success? && Truthy(Some(result.data)) && result.data.JObj? &&
            (Field(result.data, "pagination") == None || Field(result.data, "pagination") == Some(JNull)) ==>
      MapLogs(result).Throws?
  {
  }

  /** A page of 10 at offset 0 of 25 has more; a page of 10 at offset 20 of
      25 does not. */
  lemma HasMoreExamples()
    ensures HasMore(Some(JNum(0)), Some(JNum(10)), Some(JNum(25)))
    ensures !HasMore(Some(JNum(20)), Some(JNum(10)), Some(JNum(25)))
  {
  }

  /** `getLogs(pathId, options)` on one service instance. */
  method GetLogs(client: ApiClient, pathId: string, options: LogsOptions, transport: Transport) returns (r: Outcome<LogsResponse>)
    ensures r == MapLogs(client.Get(LogsPath(pathId, Serialize(LogsParams(options))), transport))
  {
    var endpoint := LogsEndpoint(pathId, options);
    var result := client.Get(endpoint, transport);
    r := MapLogs(result);
  }

  /** `requestService.getLogs` of `api.service.ts`: the same endpoint, over
      `API_URL`, and the same pagination rule. */
  method ServerGetLogs(env: Env, pathId: string, options: LogsOptions, transport: Transport) returns (r: Outcome<LogsResponse>)
    ensures r == MapLogs(Normalize(transport(env.apiUrl + LogsPath(pathId, Serialize(LogsParams(options))), RequestInit("GET", None))))
    ensures r.Returns? && r.value.LogsSuccess? ==>
      var p := r.value.pagination;
      p.hasMore == HasMore(p.offset, p.limit, p.total)
  {
    r := GetLogs(ServerApiService(env), pathId, options, transport);
  }
}
