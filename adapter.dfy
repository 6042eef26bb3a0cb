/**
 * The request adapter shared by every tool: `make_api_request` and the
 * synchronous branch of `api_call` that duplicates it.
 *
 * The HTTP GET itself is an input: `fetch` maps the outbound request to what
 * the client produced (a transport failure, a body that is not JSON, or the
 * decoded body). The credential read from `ETHERSCAN_API_KEY` is the input
 * `apiKey`. The JSON text `json.dumps(..., indent=2)` that `api_call` returns
 * is represented by the decoded value it serialises.
 */
module Adapter {
  import opened Wrappers
  import opened Json
  import opened ToolParams

  /** The query dictionary handed to the HTTP client. */
  type QueryMap = map<string, string>

  const Endpoint := "https://api.etherscan.io/v2/api"
  const ApiKeyParam := "apikey"
  const NoTransactionsFound := "No transactions found"
  const UnknownApiError := "Unknown API error"
  const MissingKeyMessage := "ETHERSCAN_API_KEY environment variable is not set"

  /** One outbound HTTP GET. */
  datatype Request = HttpGet(url: string, query: QueryMap)

  /** What the HTTP client produced for a request. */
  datatype Response =
    | TransportFailed(reason: string)  // httpx.HTTPError: network failure or non-2xx status
    | MalformedBody(reason: string)    // response.json() raised: the body is not JSON
    | Body(data: Value)                // the decoded body

  /** The exception `api_call` lets escape. */
  datatype ApiError =
    | ConfigError               // raised before the request, outside the try
    | HttpFailed(reason: string)  // re-raised by the `except httpx.HTTPError` handler
    | Unexpected(cause: Cause)  // re-raised by the generic `except Exception` handler

  /** What the generic handler caught. */
  datatype Cause =
    | Upstream(detail: Value)   // the adapter's own "Etherscan API error"
    | ParseFailed(reason: string)
    | NotAnObject(body: Value)  // `data.get` on a body that is not a dictionary

  /** `if not api_key`: the variable is unset or set to the empty string. */
  predicate KeyMissing(apiKey: Option<string>)
  {
    apiKey.None? || apiKey.value == ""
  }

  /** The query the adapter sends: the present parameters, stringified, with `apikey` forced. */
  function Query(params: ParamMap, apiKey: string): QueryMap
  {
    (map k | k in params && params[k].Some? :: params[k].value)[ApiKeyParam := apiKey]
  }

  /**
   * The query loop of `make_api_request` in utils.py (repeated in the
   * synchronous branch of `api_call`): copy every parameter whose value is
   * not `None` into a fresh dictionary, then write the key.
   */
  method BuildQuery(params: ParamMap, apiKey: string) returns (q: QueryMap)
    ensures q == Query(params, apiKey)
  {
    q := map[];
    var todo := params.Keys;
    while todo != {}
      invariant todo <= params.Keys
      invariant q == map k | k in params && k !in todo && params[k].Some? :: params[k].value
      decreases todo
    {
      var key :| key in todo;
      if params[key].Some? {
        q := q[key := params[key].value];
      }
      todo := todo - {key};
    }
    q := q[ApiKeyParam := apiKey];
  }

  /** `data.get("status") == "0" and data.get("message") != "No transactions found"`. */
  predicate IsApiError(data: map<string, Value>)
  {
    Get(data, "status") == Some(JString("0")) && Get(data, "message") != Some(JString(NoTransactionsFound))
  }

  /** `data.get("result", data.get("message", "Unknown API error"))`. */
  function ErrorDetail(data: map<string, Value>): Value
  {
    if "result" in data then data["result"]
    else if "message" in data then data["message"]
    else JString(UnknownApiError)
  }

  /** `data.get("result", data)`: what `api_call` serialises on success. */
  function Selected(data: map<string, Value>): Value
  {
    if "result" in data then data["result"] else JObject(data)
  }

  /** `make_api_request`: the decoded envelope, or the exception it raises. */
  function MakeApiRequest(apiKey: Option<string>, params: ParamMap, fetch: Request -> Response)
    : Result<map<string, Value>, ApiError>
  {
    if KeyMissing(apiKey) then Failure(ConfigError)
    else
      match fetch(HttpGet(Endpoint, Query(params, apiKey.value)))
      case TransportFailed(reason) => Failure(HttpFailed(reason))
      case MalformedBody(reason) => Failure(Unexpected(ParseFailed(reason)))
      case Body(data) =>
        if !data.JObject? then Failure(Unexpected(NotAnObject(data)))
        else if IsApiError(data.fields) then Failure(Unexpected(Upstream(ErrorDetail(data.fields))))
        else Success(data.fields)
  }

  /** `api_call` on the asynchronous path: run `make_api_request`, then select the result. */
  function ApiCall(apiKey: Option<string>, params: ParamMap, fetch: Request -> Response)
    : Result<Value, ApiError>
  {
    match MakeApiRequest(apiKey, params, fetch)
    case Success(data) => Success(Selected(data))
    case Failure(e) => Failure(e)
  }

  /**
   * The branch of `api_call` taken inside a running event loop, which repeats
   * the key check, query construction and classification inline. It behaves
   * exactly as the asynchronous path.
   */
  method SyncApiCall(apiKey: Option<string>, params: ParamMap, fetch: Request -> Response)
    returns (o: Result<Value, ApiError>)
    ensures o == ApiCall(apiKey, params, fetch)
  {
    if apiKey.None? || apiKey.value == "" {
      return Failure(ConfigError);
    }
    var query := BuildQuery(params, apiKey.value);
    var response := fetch(HttpGet(Endpoint, query));
    match response {
      case TransportFailed(reason) =>
        o := Failure(HttpFailed(reason));
      case MalformedBody(reason) =>
        o := Failure(Unexpected(ParseFailed(reason)));
      case Body(data) =>
        if !data.JObject? {
          o := Failure(Unexpected(NotAnObject(data)));
        } else {
          var fields := data.fields;
          if Get(fields, "status") == Some(JString("0")) && Get(fields, "message") != Some(JString(NoTransactionsFound)) {
            var detail := if "result" in fields then fields["result"]
                          else if "message" in fields then fields["message"]
                          else JString(UnknownApiError);
            o := Failure(Unexpected(Upstream(detail)));
          } else {
            o := Success(if "result" in fields then fields["result"] else data);
          }
        }
    }
  }

  /**
   * The text of the escaping exception. `render` is Python's `str()` of the
   * decoded detail, which an f-string applies.
   */
  function Message(e: ApiError, render: Value -> string): string
  {
    match e
    case ConfigError => MissingKeyMessage
    case HttpFailed(reason) => "HTTP request failed: " + reason
    case Unexpected(Upstream(detail)) => "Unexpected error: Etherscan API error: " + render(detail)
    case Unexpected(ParseFailed(reason)) => "Unexpected error: " + reason
    case Unexpected(NotAnObject(body)) => "Unexpected error: '" + TypeName(body) + "' object has no attribute 'get'"
  }

  /** `render` agrees with Python's `str()` on strings and on `None`. */
  ghost predicate RendersScalars(render: Value -> string)
  {
    render(JNull) == "None" && forall s: string :: render(JString(s)) == s
  }

  // ---------------------------------------------------------------------------
  // Properties
  // ---------------------------------------------------------------------------

  /** A missing or empty key is a configuration error, whatever the parameters and the network do. */
  lemma MissingKeyIsConfigError(apiKey: Option<string>, params: ParamMap, fetch: Request -> Response, render: Value -> string)
    requires KeyMissing(apiKey)
    ensures ApiCall(apiKey, params, fetch) == Failure(ConfigError)
    ensures Message(ApiCall(apiKey, params, fetch).error, render) == MissingKeyMessage
  {
  }

  /**
   * The query's keys are the parameters whose value is not `None`, plus
   * `apikey`; each kept value is passed unchanged (empty strings included);
   * `apikey` is always the configured key.
   */
  lemma QueryShape(params: ParamMap, apiKey: string)
    ensures forall k :: k in Query(params, apiKey) <==> k == ApiKeyParam || (k in params && params[k].Some?)
    ensures forall k :: k in params && params[k].Some? && k != ApiKeyParam ==> Query(params, apiKey)[k] == params[k].value
    ensures Query(params, apiKey)[ApiKeyParam] == apiKey
  {
  }

  /** A caller-supplied `apikey` entry never reaches the query: the configured key overrides it. */
  lemma CallerApiKeyOverridden(params: ParamMap, v: Option<string>, apiKey: string)
    ensures Query(params[ApiKeyParam := v], apiKey) == Query(params, apiKey)
  {
    var p' := params[ApiKeyParam := v];
    assert forall k :: k in Query(p', apiKey) <==> k in Query(params, apiKey);
  }

  /** A parameter set to `None` is sent exactly as if it had been left out. */
  lemma NoneIsOmitted(params: ParamMap, key: string, apiKey: string)
    ensures Query(params[key := None], apiKey) == Query(params - {key}, apiKey)
  {
    assert forall k :: k in Query(params[key := None], apiKey) <==> k in Query(params - {key}, apiKey);
  }

  /** The outcome depends on the parameters only through the query they produce. */
  lemma OutcomeDependsOnQuery(apiKey: Option<string>, p1: ParamMap, p2: ParamMap, fetch: Request -> Response)
    requires !KeyMissing(apiKey) ==> Query(p1, apiKey.value) == Query(p2, apiKey.value)
    ensures ApiCall(apiKey, p1, fetch) == ApiCall(apiKey, p2, fetch)
  {
  }

  /**
   * An envelope is an error iff its `status` is the string "0" and its
   * `message` is not exactly "No transactions found"; a missing or other
   * status is never an error.
   */
  lemma Classification(data: map<string, Value>)
    ensures IsApiError(data) <==>
      "status" in data && data["status"] == JString("0")
      && !("message" in data && data["message"] == JString(NoTransactionsFound))
    ensures ("status" in data && data["status"] == JString("0") && "message" in data
             && data["message"] == JString(NoTransactionsFound)) ==> !IsApiError(data)
    ensures ("status" !in data || data["status"] != JString("0")) ==> !IsApiError(data)
  {
  }

  /**
   * The error detail is `result` whenever that key is present, even when it is
   * null; only without it does `message`, and then "Unknown API error", apply.
   */
  lemma DetailChoice(data: map<string, Value>)
    ensures "result" in data ==> ErrorDetail(data) == data["result"]
    ensures "result" !in data && "message" in data ==> ErrorDetail(data) == data["message"]
    ensures "result" !in data && "message" !in data ==> ErrorDetail(data) == JString(UnknownApiError)
  {
  }

  /**
   * The whole decision of the adapter once the key is set and a decoded
   * object came back: an upstream error (re-wrapped by the generic handler)
   * exactly when the envelope is an error, otherwise `result` or the whole
   * envelope.
   */
  lemma EnvelopeOutcome(apiKey: Option<string>, params: ParamMap, fetch: Request -> Response, data: map<string, Value>)
    requires !KeyMissing(apiKey)
    requires fetch(HttpGet(Endpoint, Query(params, apiKey.value))) == Body(JObject(data))
    ensures ApiCall(apiKey, params, fetch).Failure? <==> IsApiError(data)
    ensures IsApiError(data) ==> ApiCall(apiKey, params, fetch) == Failure(Unexpected(Upstream(ErrorDetail(data))))
    ensures !IsApiError(data) && "result" in data ==> ApiCall(apiKey, params, fetch) == Success(data["result"])
    ensures !IsApiError(data) && "result" !in data ==> ApiCall(apiKey, params, fetch) == Success(JObject(data))
  {
  }

  /**
   * Every error envelope surfaces with both prefixes, the generic handler's
   * first, followed by `str()` of the chosen detail.
   */
  lemma UpstreamMessage(apiKey: Option<string>, params: ParamMap, fetch: Request -> Response,
                        data: map<string, Value>, render: Value -> string)
    requires !KeyMissing(apiKey)
    requires fetch(HttpGet(Endpoint, Query(params, apiKey.value))) == Body(JObject(data))
    requires IsApiError(data)
    ensures ApiCall(apiKey, params, fetch).Failure?
    ensures Message(ApiCall(apiKey, params, fetch).error, render)
         == "Unexpected error: Etherscan API error: " + render(ErrorDetail(data))
  {
  }

  /**
   * When the chosen detail is a string (the usual `result` text such as
   * "Max rate limit reached", or `message` when there is no `result`), the
   * surfaced text quotes that string verbatim.
   */
  lemma UpstreamStringDetail(apiKey: Option<string>, params: ParamMap, fetch: Request -> Response,
                             data: map<string, Value>, render: Value -> string)
    requires !KeyMissing(apiKey)
    requires RendersScalars(render)
    requires fetch(HttpGet(Endpoint, Query(params, apiKey.value))) == Body(JObject(data))
    requires IsApiError(data)
    requires ErrorDetail(data).JString?
    ensures Message(ApiCall(apiKey, params, fetch).error, render)
         == "Unexpected error: Etherscan API error: " + ErrorDetail(data).s
  {
    UpstreamMessage(apiKey, params, fetch, data, render);
  }

  /** `{"status":"0","message":"NOTOK","result":"Max rate limit reached"}` surfaces the `result` text. */
  lemma RateLimitMessage(apiKey: Option<string>, params: ParamMap, fetch: Request -> Response, render: Value -> string)
    requires !KeyMissing(apiKey)
    requires RendersScalars(render)
    requires fetch(HttpGet(Endpoint, Query(params, apiKey.value))) ==
      Body(JObject(map["status" := JString("0"), "message" := JString("NOTOK"),
                       "result" := JString("Max rate limit reached")]))
    ensures ApiCall(apiKey, params, fetch) == Failure(Unexpected(Upstream(JString("Max rate limit reached"))))
    ensures Message(ApiCall(apiKey, params, fetch).error, render)
         == "Unexpected error: Etherscan API error: " + "Max rate limit reached"
  {
  }

  /** `{"status":"0","message":"No transactions found","result":[]}` yields `[]`. */
  lemma NoTransactionsFoundIsEmptyResult(apiKey: Option<string>, params: ParamMap, fetch: Request -> Response)
    requires !KeyMissing(apiKey)
    requires fetch(HttpGet(Endpoint, Query(params, apiKey.value))) ==
      Body(JObject(map["status" := JString("0"), "message" := JString(NoTransactionsFound), "result" := JArray([])]))
    ensures ApiCall(apiKey, params, fetch) == Success(JArray([]))
  {
  }

  /**
   * `{"status":"0","message":"Invalid API Key","result":null}` raises an
   * upstream error whose detail is the null `result`, so its text reads
   * "... Etherscan API error: None" and does not quote the message.
   */
  lemma InvalidKeyWithNullResult(apiKey: Option<string>, params: ParamMap, fetch: Request -> Response, render: Value -> string)
    requires !KeyMissing(apiKey)
    requires RendersScalars(render)
    requires fetch(HttpGet(Endpoint, Query(params, apiKey.value))) ==
      Body(JObject(map["status" := JString("0"), "message" := JString("Invalid API Key"), "result" := JNull]))
    ensures ApiCall(apiKey, params, fetch) == Failure(Unexpected(Upstream(JNull)))
    ensures Message(ApiCall(apiKey, params, fetch).error, render) == "Unexpected error: Etherscan API error: None"
  {
  }

  /** `{"status":"1","message":"OK","result":{"x":1}}` yields `{"x":1}`. */
  lemma OkResultIsSelected(apiKey: Option<string>, params: ParamMap, fetch: Request -> Response)
    requires !KeyMissing(apiKey)
    requires fetch(HttpGet(Endpoint, Query(params, apiKey.value))) ==
      Body(JObject(map["status" := JString("1"), "message" := JString("OK"), "result" := JObject(map["x" := JNumber(1)])]))
    ensures ApiCall(apiKey, params, fetch) == Success(JObject(map["x" := JNumber(1)]))
  {
  }

  /** Transport failures and bodies that are not JSON objects are surfaced, never turned into a result. */
  lemma FetchFailuresSurface(apiKey: Option<string>, params: ParamMap, fetch: Request -> Response)
    requires !KeyMissing(apiKey)
    ensures fetch(HttpGet(Endpoint, Query(params, apiKey.value))).TransportFailed? ==>
      ApiCall(apiKey, params, fetch) == Failure(HttpFailed(fetch(HttpGet(Endpoint, Query(params, apiKey.value))).reason))
    ensures fetch(HttpGet(Endpoint, Query(params, apiKey.value))).MalformedBody? ==>
      ApiCall(apiKey, params, fetch).Failure? && ApiCall(apiKey, params, fetch).error.Unexpected?
    ensures ApiCall(apiKey, params, fetch).Success? ==>
      fetch(HttpGet(Endpoint, Query(params, apiKey.value))).Body?
      && fetch(HttpGet(Endpoint, Query(params, apiKey.value))).data.JObject?
  {
  }
}
