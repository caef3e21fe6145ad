# UniSender API client: dispatch policy and `subscribe` builder

This project models the PHP client class `SlowProg\UniSender\Api` for the
UniSender e-mail/SMS marketing API. It covers the parts of the class that
make decisions:

- **Construction.** The caller's configuration array is merged over the
  defaults: encoding `UTF8`, retry count 4, timeout null, test mode off.
- **`callMethod`.** This is the request dispatcher:
  - It converts the parameters when the configured encoding is not UTF8.
  - It adds the `api_key` credential to the body.
  - It builds the query `format=json&test_mode=0|1`.
  - It falls back to a 10-second timeout when the configured one is null or 0.
  - It posts in a do-while loop. Attempt *i* goes to `https://api.unisender.com/ru/api/`
    when *i* is even and to `https://www.api.unisender.com/ru/api/` when *i* is odd.
    The loop stops at the first success or once the retry count is reached.
  - It returns the decoded response, or null if every attempt failed.
- **`__call`.** Any method name can be called. The parameters are the first
  argument, or an empty array when there is none.
- **`subscribe`.** It checks the contact fields and builds the parameters.
  It follows PHP's real `else` binding, not the indentation (see Findings).

Modules:

- `PhpValues` (`php.dfy`) models the PHP values involved:
  - null, booleans, integers, strings, and string-keyed arrays;
  - truthiness and `isset`;
  - PHP's truncating `%`;
  - `array_walk_recursive`.
- `FormQuery` (`query.dfy`) models `http_build_query` on flat pairs whose
  characters its default RFC 1738 encoding leaves unchanged (letters,
  digits, `-`, `_`, `.`), together with its inverse.
- `Dispatch` (`dispatch.dfy`) holds the policy as pure definitions:
  - `Dispatched` states everything one call does against a given sequence
    of transport outcomes: which requests it issues and what it returns.
  - Lemmas derive the retry and failover properties from it.
- `UniSender` (`api.dfy`) holds the class `Api` and the `subscribe` parameter
  builders:
  - `Api` has the source's fields.
  - `CallMethod` is a method with the source's do-while loop, proved to
    satisfy `Dispatched`.

The transport is an oracle, `outcomes: seq<Outcome>`. Element *i* says what
`curl_exec` gave on attempt *i*: `Failed` for `false`, or `Response(body)`.
`json_decode` is a parameter `decode: string -> Value`. The character-set
converter is a parameter `conversion: Option<Value -> Value>`:

- `None` means neither `iconv` nor `mb_convert_encoding` is available.
- `Some(f)` means `f` is applied to every scalar in the parameters.

## Model

| member | source | states |
|---|---|---|
| `Dispatch.Configure` | src/Api.php:45-56 | every setting is the caller's value when given, else the default: encoding `UTF8`, retry count 4, timeout null, test mode false; the API key is stored as given |
| `Dispatch.DefaultSettings` | src/Api.php:45-50 | a client built with an empty configuration holds exactly the documented defaults |
| `UniSender.Api.constructor` | src/Api.php:43-57 | the new client's fields are the merge of the defaults with the caller's configuration |
| `UniSender.Api.SetTestMode` | src/Api.php:37 | assigning the public `testMode` property changes test mode and nothing else |
| `PhpValues.PhpRem` | src/Api.php:149 | PHP's `%` by a positive modulus: non-negative and below the modulus for non-negative dividends, non-positive and above its negation for negative ones |
| `PhpValues.PhpRemParity` | src/Api.php:149 | for every integer, PHP's `$n % 2 == 0` holds exactly when the integer is even |
| `Dispatch.HostsAlternate` | src/Api.php:147-153 | attempt *i* targets the `api.` host when *i* is even and the `www.api.` host when odd; consecutive attempts use different hosts and the pattern repeats every two attempts |
| `Dispatch.HostPrefixesDiffer` | src/Api.php:150-152 | the two failover hosts are distinct URLs |
| `PhpValues.WalkDependsOnlyOnLeaves` | src/Api.php:111-113 | `array_walk_recursive` consults its callback only on scalars: two callbacks that agree on every scalar of the parameters, at any depth, give the same result |
| `PhpValues.WalkKeepsShape` | src/Api.php:111-113 | a callback that turns scalars into scalars leaves the nesting of the parameters unchanged: the same arrays at the same places, with the same keys |
| `PhpValues.WalkIdentity` | src/Api.php:109-115 | a walk whose callback leaves scalars unchanged leaves the whole parameter tree unchanged |
| `Dispatch.Normalized` | src/Api.php:109-115 | conversion keeps the parameter keys; with encoding `UTF8`, or with no converter available, the parameters are untouched |
| `Dispatch.OutgoingBody` | src/Api.php:117-118 | the body has the caller's keys plus `api_key`; `api_key` is the stored key, overriding any caller value; with encoding `UTF8` every other entry is the caller's |
| `FormQuery.BuildQuery` | src/Api.php:120-123 | the query string is empty exactly when there are no pairs |
| `FormQuery.ParseBuildQuery` | src/Api.php:120-123 | reading a built query back gives exactly the pairs, in order, that it was built from |
| `Dispatch.QueryCarriesFormatAndTestMode` | src/Api.php:120-123 | the query string is `format=json&test_mode=1` in test mode and `format=json&test_mode=0` otherwise, and it parses back to those two pairs |
| `Dispatch.EffectiveTimeout` | src/Api.php:129 | the timeout passed to the transport is never 0; a null or 0 timeout gives 10 seconds, any other value is kept |
| `Dispatch.Budget` | src/Api.php:131-136 | a call may make `max(1, retryCount)` attempts: exactly 1 when the retry count is 0 or negative, exactly `retryCount` when it is positive |
| `Dispatch.FirstResponse` | src/Api.php:134-136 | the index of the first successful outcome: every earlier outcome failed, and the outcome there, if any, succeeded |
| `Dispatch.Attempts` | src/Api.php:131-136 | the number of attempts lies between 1 and the budget |
| `Dispatch.AttemptsAtExit` | src/Api.php:136 | stopping the loop after `n` attempts, because attempt `n-1` succeeded or the retry count was reached, makes exactly `Attempts` attempts |
| `Dispatch.Trace` | src/Api.php:132-136 | the trace of the first `n` attempts holds `n` requests |
| `Dispatch.TraceAt` | src/Api.php:133 | the request of attempt `j` goes to the host for attempt `j`, with the same method, query, body and timeout as every other attempt |
| `UniSender.Api.CallMethod` | src/Api.php:107-141 | the requests issued and the value returned are exactly those `Dispatched` describes for the client's configuration |
| `Dispatch.DispatchedRequests` | src/Api.php:117-136 | every attempt posts the same body, query and timeout to `host(j) + methodName + "?" + query` |
| `Dispatch.AtLeastOneAttempt` | src/Api.php:131-136 | every call makes at least one attempt, and the first goes to the `api.` host, even when the retry count is 0 or negative |
| `Dispatch.FirstSuccessIsReturned` | src/Api.php:132-140 | if the first success is at attempt `k < max(1, retryCount)`, exactly `k+1` attempts are made and the result is that response, decoded |
| `Dispatch.ExhaustionReturnsNull` | src/Api.php:132-140 | if every attempt in the budget fails, exactly `max(1, retryCount)` attempts are made, alternating hosts from `api.`, and the result is null |
| `UniSender.Api.Call` | src/Api.php:64-72 | `__call` dispatches any method name, with an empty array or the first argument as its parameters |
| `PhpValues.SetEntryMakesTruthy` | src/Api.php:89-92 | an array with an entry that `isset` sees is truthy |
| `UniSender.SubscribeParams` | src/Api.php:84-97 | `subscribe` throws exactly when `fields` is an array with neither `email` nor `phone` set; otherwise `list_ids` and `fields` are set and other parameters are kept; a non-array `fields` is stored unchanged, and an array gets its `email` entry replaced by a copy of itself |
| `UniSender.SecondThrowUnreachable` | src/Api.php:88-95 | the exception on line 95 is never thrown |
| `UniSender.Api.Subscribe` | src/Api.php:84-100 | when the builder throws, no request is made and the message is reported; otherwise the call is `callMethod('subscribe', …)` on the built parameters |
| `UniSender.ContactArrayIsNested` | src/Api.php:88-93 | `fields = {email: "a@b.com"}` is sent as `{email: {email: "a@b.com"}}` |
| `UniSender.EmptyStringAccepted` | src/Api.php:91-95 | an empty-string `fields` is passed through instead of refused |
| `UniSender.IntendedSubscribeParams` | src/Api.php:88-97 | with the `else` bound to the outer `if`, every accepted `fields` is an array that names an email or a phone |
| `UniSender.IntendedSubscribeBehaviour` | src/Api.php:88-95 | the intended builder refuses exactly arrays without email or phone and falsy scalars (including `""`), passes valid arrays unchanged, and treats a string as `{email: string}` |

## Left out

- cURL (src/Api.php:125-138) is replaced by the outcome sequence. Handle setup, connection errors and closing are not modelled. HTTP status codes are not modelled: any body counts as a success.
- `http_build_query` of the body (src/Api.php:118) is not modelled. The body is represented by the parameter map that would be encoded.
- `json_decode` (src/Api.php:140) is an opaque parameter. Like the source, a decoded `null` cannot be told apart from total failure.
- `iconv` and `mb_convert_encoding` (src/Api.php:110-114, 159-171) are one opaque per-scalar converter. Only the gate and the recursive walk are modelled.
- PHP arrays are modelled as maps with string keys. Integer keys and insertion order are not modelled, so the order of fields in the encoded body is not captured. Floats and objects are not modelled.
- Configuration values are taken at their documented types: encoding a string, retry count an integer, timeout an integer or null, test mode a boolean. PHP's loose comparisons and casts for other kinds of value are not modelled.
- Dispatch.QueryCarriesFormatAndTestMode: `(int)$this->testMode` is 0 or 1 only because test mode is a boolean here. An integer test mode would be sent as that integer.
- UniSender.Api.CallMethod: requires at least `max(1, retryCount)` outcomes, so that the oracle can answer every attempt the budget allows. This is a condition on the model's oracle; the source demands nothing of its callers.
- `__call` arguments are modelled as a sequence of parameter maps. A non-array first argument is not modelled.
- Request compression and credentials in the query string are not modelled, because this class has neither.
- Concurrency and timing are left out. The code is synchronous, and retries are immediate.

## Findings

| source | as written | input that shows it | evidently intended | confidence | as-written member | corrected member |
|---|---|---|---|---|---|---|
| src/Api.php:88-95 | the `else` on line 91 binds to the inner `if` on line 89. An array that names an email or phone gets `$fields['email'] = $fields`, which nests it inside itself. A non-array `fields`, even `""`, is sent unchecked. The throw on line 95 cannot happen | `subscribe('1', ['email' => 'a@b.com'])` sends `fields[email][email]=a@b.com`; `subscribe('1', '')` is not refused | per the docblock on line 78 and the line-95 message: a valid array is sent unchanged, a truthy string `s` becomes `['email' => s]`, and an empty value throws the line-95 exception. This needs the `else` on the outer `if` and line 93 rewritten as `$fields = ['email' => $fields]`, since as written it would be a string-offset write | high; not executed | `UniSender.SubscribeParams` (with `UniSender.ContactArrayIsNested`, `UniSender.EmptyStringAccepted`, `UniSender.SecondThrowUnreachable`) | `UniSender.IntendedSubscribeParams` (with `UniSender.IntendedSubscribeBehaviour`) |

`UniSender.Api.Subscribe` models the library as it behaves, so it uses the
as-written builder. The corrected builder and its properties sit beside it as
the reference for the intended behaviour.
