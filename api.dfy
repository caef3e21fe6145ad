/**
 * The UniSender API client object: its configuration fields, the generic
 * `callMethod` dispatcher with its retry/failover loop, the `__call` entry
 * point and the `subscribe` parameter builder.
 */
module UniSender {
  import opened PhpValues
  import opened Dispatch

  const MissingContactMessage := "email or phone keys are required in array $fields"
  const MissingEmailMessage := "email keys are required in $fields like a string"

  /**
   * The parameters `subscribe` hands to `callMethod`, or the exception it
   * throws first. PHP binds the `else` to the nearer `if`: the string check
   * belongs to the array branch, so a non-array `fields` is stored as it is,
   * and an array holding `email` or `phone` gets its `email` entry replaced
   * by a copy of the whole array.
   */
  function SubscribeParams(listIds: Value, fields: Value, params: map<string, Value>)
    : (r: Result<map<string, Value>>)
    ensures r.Err? <==> fields.Arr? && !IsSet(fields.entries, "email") && !IsSet(fields.entries, "phone")
    ensures r.Err? ==> r.message == MissingContactMessage
    ensures r.Ok? ==> r.value.Keys == params.Keys + {"list_ids", "fields"}
    ensures r.Ok? ==> r.value["list_ids"] == listIds
    ensures r.Ok? ==> forall k :: k in params && k != "list_ids" && k != "fields" ==> r.value[k] == params[k]
    ensures !fields.Arr? ==> r.Ok? && r.value["fields"] == fields
    ensures r.Ok? && fields.Arr? ==> r.value["fields"] == Arr(fields.entries["email" := fields])
  {
    var params := params["list_ids" := listIds];
    if fields.Arr? then
      if !IsSet(fields.entries, "email") && !IsSet(fields.entries, "phone") then
        Err(MissingContactMessage)
      else if Truthy(fields) then
        Ok(params["fields" := Arr(fields.entries["email" := fields])])
      else
        Err(MissingEmailMessage)
    else
      Ok(params["fields" := fields])
  }

  /** The second exception of `subscribe` can never be thrown. */
  lemma SecondThrowUnreachable(listIds: Value, fields: Value, params: map<string, Value>)
    ensures SubscribeParams(listIds, fields, params) != Err(MissingEmailMessage)
  {
  }

  /** An `email` passed as an array comes out nested one level too deep. */
  lemma ContactArrayIsNested()
    ensures SubscribeParams(Str("1"), Arr(map["email" := Str("a@b.com")]), map[])
         == Ok(map["list_ids" := Str("1"),
                   "fields" := Arr(map["email" := Arr(map["email" := Str("a@b.com")])])])
  {
    var fields := Arr(map["email" := Str("a@b.com")]);
    SetEntryMakesTruthy(fields.entries, "email");
    assert fields.entries["email" := fields] == map["email" := fields];
    assert map[]["list_ids" := Str("1")]["fields" := Arr(map["email" := fields])]
        == map["list_ids" := Str("1"), "fields" := Arr(map["email" := fields])];
  }

  /** The empty string is passed through as the `fields` parameter instead of being refused. */
  lemma EmptyStringAccepted()
    ensures SubscribeParams(Str("1"), Str(""), map[])
         == Ok(map["list_ids" := Str("1"), "fields" := Str("")])
  {
  }

  /**
   * The parameters `subscribe` evidently means to build, going by its
   * docblock ("email string or an associative array with the email or/and
   * phone") and the message of its second exception: an array must name an
   * email or a phone and is passed on unchanged; any other truthy value is
   * the email itself, sent as `['email' => fields]`; a falsy one is refused.
   * Moving the `else` to the outer `if` is not enough for this: the
   * assignment `$fields['email'] = $fields` would then write a string
   * offset, and has to become `$fields = ['email' => $fields]`.
   */
  function IntendedSubscribeParams(listIds: Value, fields: Value, params: map<string, Value>)
    : (r: Result<map<string, Value>>)
    ensures r.Ok? ==> r.value.Keys == params.Keys + {"list_ids", "fields"}
    ensures r.Ok? ==> r.value["list_ids"] == listIds
    ensures r.Ok? ==> forall k :: k in params && k != "list_ids" && k != "fields" ==> r.value[k] == params[k]
    ensures r.Ok? ==> var f := r.value["fields"]; f.Arr? && (IsSet(f.entries, "email") || IsSet(f.entries, "phone"))
  {
    var params := params["list_ids" := listIds];
    if fields.Arr? then
      if !IsSet(fields.entries, "email") && !IsSet(fields.entries, "phone") then
        Err(MissingContactMessage)
      else
        Ok(params["fields" := fields])
    else if Truthy(fields) then
      Ok(params["fields" := Arr(map["email" := fields])])
    else
      Err(MissingEmailMessage)
  }

  /**
   * The intended builder refuses exactly the arrays without email or phone
   * and the falsy scalars, passes a valid array on unchanged, and treats a
   * string as shorthand for an array holding it as the email.
   */
  lemma IntendedSubscribeBehaviour(listIds: Value, fields: Value, params: map<string, Value>)
    ensures IntendedSubscribeParams(listIds, fields, params).Err? <==>
              ((fields.Arr? && !IsSet(fields.entries, "email") && !IsSet(fields.entries, "phone"))
               || (!fields.Arr? && !Truthy(fields)))
    ensures fields.Arr? && IntendedSubscribeParams(listIds, fields, params).Ok? ==>
              IntendedSubscribeParams(listIds, fields, params).value["fields"] == fields
    ensures fields.Str? && Truthy(fields) ==>
              (IntendedSubscribeParams(listIds, fields, params)
               == IntendedSubscribeParams(listIds, Arr(map["email" := fields]), params))
    ensures IntendedSubscribeParams(listIds, Str(""), params) == Err(MissingEmailMessage)
  {
  }

  /** The UniSender client: its fields are set once by the constructor; `testMode` is public. */
  class Api {
    var apiKey: string
    var encoding: string
    var retryCount: int
    var timeout: Option<int>
    var testMode: bool

    /** The configuration currently held by this client. */
    function Config(): Settings
      reads this
    {
      Settings(apiKey, encoding, retryCount, timeout, testMode)
    }

    /** `__construct`: the defaults merged with the caller's configuration array. */
    constructor (apiKey: string, config: Overrides)
      ensures Config() == Configure(apiKey, config)
    {
      var merged := Configure(apiKey, config);
      this.apiKey := apiKey;
      this.encoding := merged.encoding;
      this.retryCount := merged.retryCount;
      this.timeout := merged.timeout;
      this.testMode := merged.testMode;
    }

    /** Assignment to the public `testMode` property; nothing else changes. */
    method SetTestMode(on: bool)
      modifies this`testMode
      ensures Config() == old(Config()).(testMode := on)
    {
      testMode := on;
    }

    /**
     * `callMethod`: encode the parameters, add the credential, then post to
     * alternating hosts until one attempt succeeds or the retry count is
     * reached; the attempts' outcomes come from `outcomes`.
     */
    method CallMethod(methodName: string, params: map<string, Value>,
                      conversion: Option<Value -> Value>, decode: string -> Value,
                      outcomes: seq<Outcome>)
      returns (result: Value, requests: seq<Request>)
      requires |outcomes| >= Budget(retryCount)
      ensures Dispatched(Config(), methodName, params, conversion, decode, outcomes, result, requests)
    {
      var body := Normalized(params, encoding, conversion);
      body := body["api_key" := Str(apiKey)];
      var getParams := QueryString(testMode);
      var seconds := EffectiveTimeout(timeout);

      // do { ... } while (...): the first attempt happens unconditionally
      var attempt := 0;
      var response := outcomes[attempt];
      requests := [Request(ApiHost(attempt), methodName, getParams, body, seconds)];
      attempt := attempt + 1;
      while response.Failed? && attempt < retryCount
        invariant 1 <= attempt <= Budget(retryCount)
        invariant requests == Trace(attempt, methodName, testMode, body, seconds)
        invariant forall j :: 0 <= j < attempt - 1 ==> outcomes[j].Failed?
        invariant response == outcomes[attempt - 1]
      {
        response := outcomes[attempt];
        requests := requests + [Request(ApiHost(attempt), methodName, getParams, body, seconds)];
        attempt := attempt + 1;
      }

      result := if response.Response? then decode(response.body) else Null;
      AttemptsAtExit(outcomes, retryCount, attempt);
    }

    /** `__call`: any method name, with the first argument (or nothing) as its parameters. */
    method Call(name: string, arguments: seq<map<string, Value>>,
                conversion: Option<Value -> Value>, decode: string -> Value,
                outcomes: seq<Outcome>)
      returns (result: Value, requests: seq<Request>)
      requires |outcomes| >= Budget(retryCount)
      ensures Dispatched(Config(), name, if |arguments| == 0 then map[] else arguments[0],
                         conversion, decode, outcomes, result, requests)
    {
      var params: map<string, Value>;
      if |arguments| == 0 {
        params := map[];
      } else {
        params := arguments[0];
      }
      result, requests := CallMethod(name, params, conversion, decode, outcomes);
    }

    /**
     * `subscribe`: build the parameters, throwing before any request when
     * an array `fields` names neither email nor phone, then call the remote
     * `subscribe` method.
     */
    method Subscribe(listIds: Value, fields: Value, params: map<string, Value>,
                     conversion: Option<Value -> Value>, decode: string -> Value,
                     outcomes: seq<Outcome>)
      returns (thrown: Option<string>, result: Value, requests: seq<Request>)
      requires |outcomes| >= Budget(retryCount)
      ensures SubscribeParams(listIds, fields, params).Err? ==>
                thrown == Some(SubscribeParams(listIds, fields, params).message) && requests == []
      ensures SubscribeParams(listIds, fields, params).Ok? ==>
                thrown == None &&
                Dispatched(Config(), "subscribe", SubscribeParams(listIds, fields, params).value,
                           conversion, decode, outcomes, result, requests)
    {
      var p := params["list_ids" := listIds];
      var f := fields;
      if f.Arr? {
        if !IsSet(f.entries, "email") && !IsSet(f.entries, "phone") {
          return Some(MissingContactMessage), Null, [];
        } else if Truthy(f) {
          f := Arr(f.entries["email" := f]);
        } else {
          return Some(MissingEmailMessage), Null, [];
        }
      }
      p := p["fields" := f];
      thrown := None;
      result, requests := CallMethod("subscribe", p, conversion, decode, outcomes);
    }
  }
}
