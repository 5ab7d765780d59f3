# notion_rs core, modelled in Dafny

A model of the deterministic core of `notion_rs`, an async Rust client for the
Notion REST API. With the network replaced by a scripted sequence of replies,
what remains is:

- the **retry loop** that `get`, `post`, `patch` and `delete` share. It sends,
  branches on the status (2xx, 429, 401, anything else), sleeps and retries on
  429 while retries remain, and returns a typed result;
- the **backoff delay** (`calculate_retry_delay`): a server hint in seconds
  takes precedence. Otherwise the delay is `base_delay_ms * 2^attempt`, capped
  at `max_delay_ms`;
- the **request builder**: an endpoint, a query-parameter dictionary in which
  later writes win, an optional JSON body, and the URL built from them;
- the **error type** `NotionError`, with its display texts, `source` and
  conversion from transport errors;
- the **retry configuration** and its defaults (3 retries, 1000 ms base,
  5000 ms cap);
- the **database request constructors** (endpoint paths and JSON bodies) and
  the JSON form of a database query.

Files, one module each:

| file | module | models |
|---|---|---|
| `wrappers.dfy` | `Wrappers` | `Option` / `Result` |
| `ints.dfy` | `Ints` | the `u32` / `u64` field types, as bounded `nat`s |
| `json.dfy` | `JsonValue` | `serde_json::Value`, its indexing and `as_str` |
| `text.dfy` | `Text` | decimal rendering of integers, `join` |
| `errors.dfy` | `Errors` | src/error.rs |
| `response.dfy` | `Response` | `RetryConfig` of src/response.rs |
| `request.dfy` | `Request` | src/request.rs (`RequestBuilder` is a class) |
| `database.dfy` | `Database` | src/database.rs |
| `client.dfy` | `Client` | src/client.rs (`NotionClient` is a class) |

How the loop is modelled:

- The i-th element of the `script` passed to `NotionClient.Send` is what the
  i-th send produces. It is either `SendFailed(e)` or
  `Received(status, retryAfter, decoded, envelope)`.
  - `retryAfter` is the already-parsed `retry-after` header.
  - `decoded` is what `response.json::<T>()` would give.
  - `envelope` is what `response.json::<Value>()` would give.
- The loop's behaviour is stated by two functions:
  - `Client.Run(cfg, attempt, script)` returns a `Trace`: the result, the
    delays slept, and the number of sends.
  - `Client.Invoke` adds the POST/PATCH body check in front of `Run`.
- `NotionClient.Send` builds the URL and, for POST and PATCH, checks the
  body, as `post` and `patch` do before their `loop` (`get` and `delete`
  have no check). It then calls `NotionClient.Retry`, which holds the loop.
  `Retry` has the source's shape: a `while true` loop that ends by `return`,
  an `attempt` counter incremented before `continue`, and one step per
  reply. The postconditions equate the result, the ghost log of sleeps and
  the number of sent requests with `Run` (for `Retry`) and `Invoke` (for
  `Send`).
- The lemmas about `Run` and `Invoke` state the retry properties.

The four verbs share one loop, so they are one method with a `Verb`
parameter. They differ in three ways, and the model keeps each:

- each sends its own HTTP method (src/client.rs:58, :115, :173, :228),
  recorded as `HttpRequest.verb`;
- `post` and `patch` refuse a request without a body before sending
  (src/client.rs:107-110, :165-168), modelled by `Client.Invoke`;
- `post` and `patch` attach that body to every send with `.json(&body)`
  (src/client.rs:118, :176), recorded as `HttpRequest.payload`; `get` and
  `delete` send none.

Notes on the source:

- **No HTTP method field.** `RequestBuilder` (src/request.rs:6-13) has no
  HTTP method. The `builder.method(...)` calls at src/database.rs:69, :88 and
  :94 name a method that does not exist. The verb is chosen by which client
  method is called.
- **Body set as `json_body` sets it.** src/database.rs also calls `.body(x)`
  by value and discards the `Result` it returns. The model sets the body the
  way `json_body` does.
- **No sleep at attempt 3 under the defaults.** `calculate_retry_delay(3, None)`
  would give 5000 ms, but attempt 3 is the last send and fails with
  `RateLimited` (`Client.DefaultSchedule`).

## Model

| member | source | states |
|---|---|---|
| `Client.RetryDelayMs` | src/client.rs:38-46 | a hint of `s` seconds gives exactly `s * 1000` ms, uncapped; without one the delay is the smaller of `base * 2^attempt` and `max_delay_ms`: at most both, and equal to one of them |
| `Client.BackoffMonotone` | src/client.rs:42-45 | without a hint the delay never decreases as the attempt number grows |
| `Client.HintIgnoresConfig` | src/client.rs:38-41 | a hinted delay is the same for every attempt and every configuration |
| `Client.RetryDelayAsWritten` | src/client.rs:44-45 | (finding, as written) the delay with the `u64` power and product wrapping modulo 2^64 before the cap: a hint is used exactly, and otherwise the delay is still at most the cap |
| `Client.AsWrittenAgreesWithoutOverflow` | src/client.rs:44-45 | while `base * 2^attempt` fits in 64 bits, the code as written computes the intended delay |
| `Client.WrappedDelayAtAttempt61` | src/client.rs:44-45 | with 62 retries, 1000 ms base and 5000 ms cap, the as-written delay is 5000 ms at attempt 60 and drops to 0 ms at attempt 61, where 5000 ms is intended |
| `Client.ApiErrorFrom` | src/client.rs:91-98 | an error envelope gives `ApiError` with the envelope's `code`/`message` strings, or "unknown"/"Unknown error" when a field is missing or is not a string |
| `Client.Settle` | src/client.rs:64-98 | a reply other than a 429 gives `Ok` exactly for a 2xx whose body decodes (with the decoded value), `Unauthorized` exactly for a 401, and otherwise `HttpError` or `ApiError`: never `RateLimited` or `InvalidRequest` |
| `Client.Run` | src/client.rs:55-99 | the shared loop as a function of the scripted replies; its behaviour is stated by `Client.RunCharacterised` and the lemmas below it |
| `Client.Invoke` | src/client.rs:107-110 | the POST/PATCH body check in front of `Run`; stated by `Client.MissingBodyFailsBeforeSending`, `Client.NeverRefusedWithBody` and `Client.VerbsShareTheLoop` |
| `Client.RunCharacterised` | src/client.rs:55-99 | with `k` leading 429s and `budget` retries left, the loop sleeps `min(k, budget)` times, each at the delay for its attempt and hint; it fails `RateLimited` with the last hint (or 60) if `k > budget`, and otherwise ends as the first other reply says; sends = sleeps + 1 |
| `Client.RetriesBounded` | src/client.rs:70-81 | any call sleeps at most `max_retries` times and sends at most `max_retries + 1` times |
| `Client.SleepsAreExact` | src/client.rs:70-80 | the i-th sleep follows a 429 and lasts `calculate_retry_delay(i, hint of that reply)` |
| `Client.RateLimitsThenSuccess` | src/client.rs:64-81 | `k <= max_retries` 429s followed by a decodable 2xx return the decoded value after exactly `k` sleeps and `k + 1` sends |
| `Client.RetriesExhausted` | src/client.rs:82-84 | `max_retries + 1` consecutive 429s fail with `RateLimited` carrying the last reply's hint, or 60 without one |
| `Client.UnauthorizedNeverRetried` | src/client.rs:87-89 | a 401 ends the call with `Unauthorized` after one send and no sleep, whatever retries remain |
| `Client.TransportErrorsNotRetried` | src/client.rs:56-68 | a send failure, or a 2xx whose body does not decode, ends the call with `HttpError` of that error, without retry |
| `Client.OtherStatusIsApiError` | src/client.rs:91-98 | any other non-2xx status ends the call with the envelope's `ApiError`, or with `HttpError` when the body is not JSON |
| `Client.MissingBodyFailsBeforeSending` | src/client.rs:107-110 | POST and PATCH without a body fail with `InvalidRequest("Request body is required for <VERB> requests")` after zero sends |
| `Client.VerbsShareTheLoop` | src/client.rs:219-270 | once the body check passes, all four verbs give the same trace |
| `Client.RunNeverInvalidRequest` | src/client.rs:55-99 | the loop itself never yields `InvalidRequest` |
| `Client.NeverRefusedWithBody` | src/client.rs:165-168 | a call that carries a body is never refused, and runs the plain loop |
| `Client.DefaultSchedule` | src/response.rs:84-86 | under the defaults without hints the sleeps are 1000, 2000 and 4000 ms, at most three, and never reach the 5000 ms cap |
| `Request.BuiltUrlWithoutParams` | src/request.rs:61-64 | a URL built without parameters is exactly base + endpoint |
| `Client.NotionClient.constructor` | src/client.rs:23-29 | a new client holds the token and the default retry configuration |
| `Client.NotionClient.WithRetryConfig` | src/client.rs:32-35 | replaces the retry configuration and nothing else |
| `Client.NotionClient.Send` | src/client.rs:49-100 | result, sleeps and sends are those of `Invoke`; every send repeats one request: same verb, a URL `build_url` can produce, and the body only for POST/PATCH |
| `Client.NotionClient.Retry` | src/client.rs:54-99 | the loop's result, sleeps and number of sends are exactly those of `Run` from attempt 0, and every send is the same request |
| `Client.NotionClient.ListDatabases` | src/client.rs:273-276 | a GET of `https://api.notion.com/v1/databases` with no body, run through the plain loop |
| `Client.NotionClient.GetDatabase` | src/client.rs:279-282 | a GET of `.../databases/<id>` with no body, run through the plain loop |
| `Client.NotionClient.CreateDatabase` | src/client.rs:285-293 | a POST of the create body to `.../databases`; never `InvalidRequest` |
| `Client.NotionClient.UpdateDatabase` | src/client.rs:296-304 | every send is a PATCH to `.../databases/<id>` carrying exactly the update body (`Database.UpdateBody`: a title iff given, properties iff given); never `InvalidRequest` |
| `Client.NotionClient.QueryDatabase` | src/client.rs:307-314 | a POST of the serialised query to `.../databases/<id>/query`; never `InvalidRequest` |
| `Response.DefaultRetryConfig` | src/response.rs:81-89 | the defaults are 3 retries, a 1000 ms base and a 5000 ms cap, so the base never exceeds the cap |
| `Request.RequestBuilder.constructor` | src/request.rs:17-23 | endpoint as given, no parameters, no body |
| `Request.RequestBuilder.QueryParam` | src/request.rs:26-33 | `params[k] := v`, replacing an earlier value; endpoint and body unchanged |
| `Request.RequestBuilder.QueryParams` | src/request.rs:36-46 | the pairs are inserted in order (`InsertAll`); endpoint and body unchanged |
| `Request.InsertAllKeys` | src/request.rs:36-46 | inserting pairs adds exactly their keys |
| `Request.InsertAllLastWins` | src/request.rs:42-44 | for a key given several times, the last pair's value is kept |
| `Request.InsertAllKeepsOthers` | src/request.rs:42-44 | keys no pair names keep their value or stay absent |
| `Request.RequestBuilder.Body` | src/request.rs:49-52 | a serialised value becomes the body; a serialisation error is passed on |
| `Request.RequestBuilder.JsonBody` | src/request.rs:55-58 | afterwards `get_body` returns the given value; endpoint and parameters unchanged |
| `Request.RequestBuilder.GetBody` | src/request.rs:78-80 | the body last set; stated by `Request.RequestBuilder.JsonBody` (`GetBody() == Some(b)` afterwards) and the constructor (no body) |
| `Request.RequestBuilder.BuildUrl` | src/request.rs:61-75 | without parameters the URL is exactly base + endpoint; with parameters it starts with base + endpoint + `?` and is `Url(base, endpoint, params, order)` for the order it visited, which lists every key exactly once |
| `Request.Segments` | src/request.rs:65-69 | one `key=value` text per key visited, in visiting order |
| `Request.EnumerationLength` | src/request.rs:65-69 | the number of parameter texts equals the number of parameters |
| `Request.SegmentsOrderIndependent` | src/request.rs:65-69 | any two iteration orders give the same parameter texts, up to permutation |
| `Request.UrlWithoutParams` | src/request.rs:61-64 | with no parameters the URL is base + endpoint, with no `?` |
| `Request.UrlWithParams` | src/request.rs:64-72 | with parameters the URL is base + endpoint + `?` + the `&`-join of one `key=value` per key, each key exactly once |
| `Request.UrlSingleParam` | src/request.rs:64-72 | one parameter gives base + endpoint + `?k=v`, whatever the iteration order |
| `Request.BuilderExample` | src/lib.rs:18-34 | `/databases` with `page_size=100` and a body builds `https://api.notion.com/v1/databases?page_size=100` and has a body |
| `Errors.Source` | src/error.rs:47-52 | `source` is present exactly for `HttpError` and is its transport error |
| `Errors.FromTransport` | src/error.rs:55-59 | a transport error always converts to `HttpError`, whose source it is |
| `Errors.Display` | src/error.rs:29-41 | the five `write!` templates of `fmt` in the hand-written `impl fmt::Display`; `Errors.DisplayTemplates` pins four of them (`HttpError`'s text comes from reqwest and is carried opaquely), and `Errors.DisplayIdentifiesVariant` shows each message's leading text names its variant |
| `Errors.DisplayTemplates` | src/error.rs:30-41 | the rate-limit, unauthorised, invalid-request and API-error message templates |
| `Errors.DisplayIdentifiesVariant` | src/error.rs:28-43 | every message's leading text names its variant, so variants are never confused |
| `Errors.RateLimitedMessageRoundTrip` | src/error.rs:30-36 | the retry-after value can be read back from the rate-limit message |
| `Text.NatToString` | src/error.rs:30-36 | the decimal text of a number: non-empty digits with no leading zero |
| `Text.ParseNatToString` | src/error.rs:30-36 | reading the decimal text back gives the number |
| `Text.NatToStringInjective` | src/error.rs:30-36 | different retry-after values give different texts |
| `Database.SortDirectionJson` | src/database.rs:43-48 | directions serialise as `"ascending"` / `"descending"` |
| `Database.QueryJson` | src/database.rs:25-35 | a query serialises to an object with a member exactly for each field that is set, holding that field's value |
| `Database.SortsRoundTrip` | src/database.rs:37-41 | the sorts can be read back from their serialised form |
| `Database.QueryRoundTrip` | src/database.rs:25-41 | the query can be read back from its serialised form, so it loses nothing |
| `Database.TitleRoundTrip` | src/database.rs:63-66 | the title text can be read back from the rich-text title array |
| `Database.ListRequest` | src/database.rs:51-53 | endpoint `/databases`, no parameters, no body |
| `Database.GetRequest` | src/database.rs:55-57 | endpoint `/databases/<id>`, no parameters, no body |
| `Database.CreateRequest` | src/database.rs:59-71 | endpoint `/databases`; the body has exactly `parent` (with `page_id` and type `page_id`), `title` (with the given text) and `properties` (as given) |
| `Database.UpdateRequest` | src/database.rs:73-90 | endpoint `/databases/<id>`; the body is `UpdateBody`: it has `title` iff a title is given and `properties` iff properties are given (unchanged); with neither it is `{}` |
| `Database.QueryRequest` | src/database.rs:92-96 | endpoint `/databases/<id>/query`; the body is the serialised query, which reads back to the query |

## Left out

- HTTP via reqwest: the connection, `send()`, and the `Authorization` and
  `Notion-Version` headers. Each send is one element of the scripted reply
  sequence. A sent request is logged as verb, URL and payload only.
- `Client.NotionClient.Send` and `Client.NotionClient.Retry` require a script
  longer than `max_retries`. A
  call sends at most `max_retries + 1` times, so the script never runs out.
  This condition describes the stand-in network and asks nothing of callers.
- `tokio::time::sleep` and async execution. Each delay is appended to a
  ghost log in milliseconds, and nothing waits.
- serde decoding of the caller's type and of the error envelope. Each
  received reply carries both decoding outcomes. The client methods are
  generic in the decoded type rather than naming `ListResponse<Database>`
  or `ObjectResponse<Database>`.
- Parsing of the `retry-after` header text into a number. The reply
  carries the parsed `Option<u64>`, and an unparsable header is `None`.
- The text reqwest gives its own errors. `HttpError`'s message is
  `HTTP request failed: ` followed by that text, carried opaquely.
- The concrete iteration order of the `HashMap` in `build_url`.
  `Request.RequestBuilder.BuildUrl` picks keys in an arbitrary order, and
  only facts that hold for every order are proved. No parse-back of the URL
  is claimed, because keys and values are not percent-encoded.
- `Client.RetryDelayMs`: computes in unbounded arithmetic, the evidently
  intended behaviour. The source's `u64` overflow for large attempts is
  modelled separately by `Client.RetryDelayAsWritten` (see Findings).
- The DTO structs (`Database`, `RichText`, `ListResponse`, `ObjectResponse`,
  `ErrorResponse`, `BaseProperties`, `User`). They mirror the API's JSON and
  have no behaviour; `ErrorResponse` is not used by the client.
- `RequestBuilder::method`, called in src/database.rs but defined nowhere,
  and `create_database_page`, used by the tests but defined nowhere. Neither
  has behaviour to model.
- tests/client_test.rs: live-network tests only.

## Findings

| source | as written | input that shows it | evidently intended | confidence | as-written member | corrected member |
|---|---|---|---|---|---|---|
| src/client.rs:44 | `base_delay * 2u64.pow(attempt)` is computed in `u64`. Without overflow checks it wraps modulo 2^64 before the cap is applied; with overflow checks it panics. | `RetryConfig { max_retries: 62, base_delay_ms: 1000, max_delay_ms: 5000 }`, 62 consecutive 429s without `retry-after`: the sleep at attempt 61 is `1000 * 2^61 mod 2^64 = 0` ms | the capped delay `min(1000 * 2^61, 5000) = 5000` ms | high (arithmetic only; not executed) | `Client.WrappedDelayAtAttempt61` (on `Client.RetryDelayAsWritten`) | `Client.RetryDelayMs` (capped, monotone: `Client.BackoffMonotone`) |
