/**
 * The request-dispatch policy of the UniSender client, as pure definitions:
 * configuration defaults, which host each attempt targets, how many attempts
 * a call makes against a given sequence of transport outcomes, what body,
 * query and timeout every attempt carries, and what the call returns.
 */
module Dispatch {
  import opened PhpValues
  import opened FormQuery

  /** The two aliases of the service's endpoint. */
  datatype Host = ApiDomain | WwwApiDomain

  function HostPrefix(h: Host): string
  {
    match h
    case ApiDomain => "https://api.unisender.com/ru/api/"
    case WwwApiDomain => "https://www.api.unisender.com/ru/api/"
  }

  const Canonical := "UTF8"
  const DefaultRetryCount := 4
  const FallbackTimeout := 10

  /** The configuration a client holds once constructed. */
  datatype Settings = Settings(
    apiKey: string,
    encoding: string,
    retryCount: int,
    timeout: Option<int>,  // None stands for PHP's null
    testMode: bool)

  /**
   * The caller's configuration array: each entry the caller supplied, or
   * None when the key is absent. An explicit null timeout is the same as an
   * absent one, because the default is null too.
   */
  datatype Overrides = Overrides(
    encoding: Option<string>,
    retryCount: Option<int>,
    timeout: Option<int>,
    testMode: Option<bool>)

  function Pick<T>(given: Option<T>, default: T): T
  {
    match given
    case Some(v) => v
    case None => default
  }

  /** `array_merge` of the defaults with the caller's configuration. */
  function Configure(apiKey: string, config: Overrides): (s: Settings)
    ensures s.apiKey == apiKey
    ensures config.encoding.Some? ==> s.encoding == config.encoding.value
    ensures config.encoding.None? ==> s.encoding == Canonical
    ensures config.retryCount.Some? ==> s.retryCount == config.retryCount.value
    ensures config.retryCount.None? ==> s.retryCount == DefaultRetryCount
    ensures s.timeout == config.timeout
    ensures config.testMode.Some? ==> s.testMode == config.testMode.value
    ensures config.testMode.None? ==> !s.testMode
  {
    Settings(
      apiKey,
      Pick(config.encoding, Canonical),
      Pick(config.retryCount, DefaultRetryCount),
      config.timeout,
      Pick(config.testMode, false))
  }

  /** A client built without configuration gets every documented default. */
  lemma DefaultSettings(apiKey: string)
    ensures Configure(apiKey, Overrides(None, None, None, None))
         == Settings(apiKey, "UTF8", 4, None, false)
  {
  }

  // ---------------------------------------------------------------------
  // Hosts and URLs

  /** `getApiHost`: even attempt numbers go to the `api.` host, odd ones to `www.api.`. */
  function ApiHost(attempt: int): Host
  {
    if PhpRem(attempt, 2) == 0 then ApiDomain else WwwApiDomain
  }

  /** Failover alternates between the two hosts, starting with `api.`. */
  lemma HostsAlternate(attempt: int)
    ensures ApiHost(attempt) == (if attempt % 2 == 0 then ApiDomain else WwwApiDomain)
    ensures ApiHost(attempt) != ApiHost(attempt + 1)
    ensures ApiHost(attempt + 2) == ApiHost(attempt)
  {
  }

  /** The two hosts are different endpoints. */
  lemma HostPrefixesDiffer()
    ensures HostPrefix(ApiDomain) != HostPrefix(WwwApiDomain)
  {
  }

  /** The pairs of the query string: the response format and `(int)testMode`. */
  function QueryPairs(testMode: bool): (pairs: seq<(string, string)>)
    ensures PlainPairs(pairs)
  {
    [("format", "json"), ("test_mode", if testMode then "1" else "0")]
  }

  function QueryString(testMode: bool): string
  {
    BuildQuery(QueryPairs(testMode))
  }

  /** The query always reads back as `format=json` followed by a 0/1 `test_mode`. */
  lemma QueryCarriesFormatAndTestMode(testMode: bool)
    ensures ParseQuery(QueryString(testMode))
         == [("format", "json"), ("test_mode", if testMode then "1" else "0")]
    ensures QueryString(testMode) == (if testMode then "format=json&test_mode=1" else "format=json&test_mode=0")
  {
    ParseBuildQuery(QueryPairs(testMode));
  }

  // ---------------------------------------------------------------------
  // Body and timeout

  /**
   * The parameters after the encoding gate: converted leaf by leaf when the
   * configured encoding is not UTF8 and a converter (iconv, else
   * mb_convert_encoding) is available; untouched otherwise.
   */
  function Normalized(params: map<string, Value>, encoding: string,
                      conversion: Option<Value -> Value>): (r: map<string, Value>)
    ensures r.Keys == params.Keys
    ensures encoding == Canonical || conversion.None? ==> r == params
  {
    if encoding != Canonical && conversion.Some? then
      Walk(Arr(params), conversion.value).entries
    else
      params
  }

  /** The parameters that are form-encoded into the POST body. */
  function OutgoingBody(s: Settings, params: map<string, Value>,
                        conversion: Option<Value -> Value>): (body: map<string, Value>)
    ensures body.Keys == params.Keys + {"api_key"}
    ensures body["api_key"] == Str(s.apiKey)
    ensures s.encoding == Canonical ==>
              forall k :: k in params && k != "api_key" ==> body[k] == params[k]
  {
    Normalized(params, s.encoding, conversion)["api_key" := Str(s.apiKey)]
  }

  /** `$this->timeout ?: 10`: any falsy timeout (null or 0) becomes 10 seconds. */
  function EffectiveTimeout(timeout: Option<int>): (t: int)
    ensures t != 0
    ensures timeout.None? ==> t == FallbackTimeout
    ensures timeout.Some? && timeout.value != 0 ==> t == timeout.value
    ensures timeout == Some(0) ==> t == FallbackTimeout
  {
    if timeout.Some? && Truthy(Int(timeout.value)) then timeout.value else FallbackTimeout
  }

  // ---------------------------------------------------------------------
  // Attempts

  /** What the transport did on one attempt: `curl_exec` gave false, or a body. */
  datatype Outcome = Failed | Response(body: string)

  /** One POST issued to the transport: its URL in parts, its form body and its timeout. */
  datatype Request = Request(host: Host, methodName: string, query: string,
                             body: map<string, Value>, timeout: int)
  {
    /** The URL posted to: host, method name, `?`, query string. */
    function Url(): string
    {
      HostPrefix(host) + methodName + "?" + query
    }
  }

  /** The requests of the first `n` attempts, each with the same body and timeout. */
  function Trace(n: nat, methodName: string, testMode: bool,
                 body: map<string, Value>, timeout: int): (t: seq<Request>)
    ensures |t| == n
  {
    if n == 0 then []
    else Trace(n - 1, methodName, testMode, body, timeout)
         + [Request(ApiHost(n - 1), methodName, QueryString(testMode), body, timeout)]
  }

  /** Attempt `j` of a trace posts to the host for attempt number `j`. */
  lemma {:induction false} TraceAt(n: nat, methodName: string, testMode: bool,
                                   body: map<string, Value>, timeout: int, j: nat)
    requires j < n
    ensures Trace(n, methodName, testMode, body, timeout)[j]
         == Request(ApiHost(j), methodName, QueryString(testMode), body, timeout)
  {
    if j < n - 1 {
      TraceAt(n - 1, methodName, testMode, body, timeout, j);
    }
  }

  /** The number of attempts a call may make: at least one, as the loop is a do-while. */
  function Budget(retryCount: int): (n: nat)
    ensures n >= 1 && n >= retryCount
    ensures retryCount < 1 ==> n == 1
    ensures retryCount >= 1 ==> n == retryCount
  {
    if retryCount < 1 then 1 else retryCount
  }

  /** The index of the first successful outcome, or the length when there is none. */
  function FirstResponse(outcomes: seq<Outcome>): (k: nat)
    ensures k <= |outcomes|
    ensures forall j :: 0 <= j < k ==> outcomes[j].Failed?
    ensures k < |outcomes| ==> outcomes[k].Response?
  {
    if |outcomes| == 0 || outcomes[0].Response? then 0
    else 1 + FirstResponse(outcomes[1..])
  }

  /** Attempts stop after the first success, or when the budget is spent. */
  function Attempts(outcomes: seq<Outcome>, retryCount: int): (n: nat)
    ensures 1 <= n <= Budget(retryCount)
  {
    var k := FirstResponse(outcomes);
    if k + 1 < Budget(retryCount) then k + 1 else Budget(retryCount)
  }

  /**
   * The stopping rule of the do-while loop: stopping after `n` attempts,
   * because attempt `n - 1` succeeded or the retry count is reached, is
   * exactly `Attempts`.
   */
  lemma AttemptsAtExit(outcomes: seq<Outcome>, retryCount: int, n: nat)
    requires 1 <= n <= Budget(retryCount) && n <= |outcomes|
    requires forall j :: 0 <= j < n - 1 ==> outcomes[j].Failed?
    requires outcomes[n - 1].Response? || n >= retryCount
    ensures Attempts(outcomes, retryCount) == n
  {
  }

  /** The call's value: the decoded response of the last attempt, or null if it failed. */
  function Decoded(last: Outcome, decode: string -> Value): Value
  {
    match last
    case Response(body) => decode(body)
    case Failed => Null
  }

  /**
   * The observable behaviour of `callMethod(methodName, params)` against the
   * transport outcomes `outcomes`: the requests it issues, in order, and the
   * value it returns.
   */
  ghost predicate Dispatched(s: Settings, methodName: string, params: map<string, Value>,
                             conversion: Option<Value -> Value>, decode: string -> Value,
                             outcomes: seq<Outcome>, result: Value, requests: seq<Request>)
  {
    && Attempts(outcomes, s.retryCount) <= |outcomes|
    && requests == Trace(Attempts(outcomes, s.retryCount), methodName, s.testMode,
                         OutgoingBody(s, params, conversion), EffectiveTimeout(s.timeout))
    && result == Decoded(outcomes[|requests| - 1], decode)
  }

  /** Every attempt of a call carries the same body, query and timeout; only the host varies. */
  lemma DispatchedRequests(s: Settings, methodName: string, params: map<string, Value>,
                           conversion: Option<Value -> Value>, decode: string -> Value,
                           outcomes: seq<Outcome>, result: Value, requests: seq<Request>)
    requires Dispatched(s, methodName, params, conversion, decode, outcomes, result, requests)
    ensures forall j :: 0 <= j < |requests| ==>
              requests[j] == Request(ApiHost(j), methodName, QueryString(s.testMode),
                                     OutgoingBody(s, params, conversion), EffectiveTimeout(s.timeout))
    ensures forall j :: 0 <= j < |requests| ==>
              requests[j].Url() == HostPrefix(ApiHost(j)) + methodName + "?" + QueryString(s.testMode)
  {
    forall j | 0 <= j < |requests|
      ensures requests[j] == Request(ApiHost(j), methodName, QueryString(s.testMode),
                                     OutgoingBody(s, params, conversion), EffectiveTimeout(s.timeout))
    {
      TraceAt(|requests|, methodName, s.testMode, OutgoingBody(s, params, conversion),
              EffectiveTimeout(s.timeout), j);
    }
  }

  /** Every call makes at least one attempt, to the `api.` host, whatever the retry count. */
  lemma AtLeastOneAttempt(s: Settings, methodName: string, params: map<string, Value>,
                          conversion: Option<Value -> Value>, decode: string -> Value,
                          outcomes: seq<Outcome>, result: Value, requests: seq<Request>)
    requires Dispatched(s, methodName, params, conversion, decode, outcomes, result, requests)
    ensures |requests| >= 1
    ensures requests[0].host == ApiDomain && requests[0].methodName == methodName
  {
    DispatchedRequests(s, methodName, params, conversion, decode, outcomes, result, requests);
    HostsAlternate(0);
  }

  /**
   * A first success at attempt `k` within the budget ends the call after
   * exactly `k + 1` attempts and returns that response, decoded.
   */
  lemma FirstSuccessIsReturned(s: Settings, methodName: string, params: map<string, Value>,
                               conversion: Option<Value -> Value>, decode: string -> Value,
                               outcomes: seq<Outcome>, result: Value, requests: seq<Request>, k: nat)
    requires Dispatched(s, methodName, params, conversion, decode, outcomes, result, requests)
    requires k < Budget(s.retryCount) && k < |outcomes|
    requires outcomes[k].Response?
    requires forall j :: 0 <= j < k ==> outcomes[j].Failed?
    ensures |requests| == k + 1
    ensures result == decode(outcomes[k].body)
  {
  }

  /**
   * When every attempt within the budget fails, the call makes exactly
   * `max(1, retryCount)` attempts, alternating hosts from `api.`, and
   * returns null.
   */
  lemma ExhaustionReturnsNull(s: Settings, methodName: string, params: map<string, Value>,
                              conversion: Option<Value -> Value>, decode: string -> Value,
                              outcomes: seq<Outcome>, result: Value, requests: seq<Request>)
    requires Dispatched(s, methodName, params, conversion, decode, outcomes, result, requests)
    requires forall j :: 0 <= j < Budget(s.retryCount) && j < |outcomes| ==> outcomes[j].Failed?
    ensures |requests| == Budget(s.retryCount)
    ensures result == Null
    ensures forall j :: 0 <= j < |requests| ==>
              requests[j].host == (if j % 2 == 0 then ApiDomain else WwwApiDomain)
  {
    DispatchedRequests(s, methodName, params, conversion, decode, outcomes, result, requests);
    forall j | 0 <= j < |requests|
      ensures requests[j].host == (if j % 2 == 0 then ApiDomain else WwwApiDomain)
    {
      HostsAlternate(j);
    }
  }
}
