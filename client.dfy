/**
 * The client of src/client.rs: the backoff delay, the retry loop that all
 * four HTTP verbs share, and the database operations built on it.
 *
 * The network is replaced by a script: the i-th element of `script` is what
 * the i-th send produces. A received reply carries what decoding its body
 * would give, both as the caller's type `T` and as a generic JSON error
 * envelope, since both decoders belong to libraries outside this model.
 * Sleeping is not performed; the delays asked for are logged instead.
 */
module Client {
  import opened Wrappers
  import opened Ints
  import opened JsonValue
  import opened Errors
  import opened Response
  import opened Request
  import Database

  const NotionApiBase := "https://api.notion.com/v1"

  /** Seconds reported by a rate-limit failure when the server gave no hint. */
  const DefaultRetryAfterSecs: Uint64 := 60

  const StatusUnauthorized := 401
  const StatusTooManyRequests := 429

  // ---------------------------------------------------------------------------
  // Backoff
  // ---------------------------------------------------------------------------

  function Pow2(n: nat): (p: nat)
    ensures p >= 1
  {
    if n == 0 then 1 else 2 * Pow2(n - 1)
  }

  function Min(a: nat, b: nat): nat {
    if a <= b then a else b
  }

  /**
   * `calculate_retry_delay`, in milliseconds. A server hint of `s` seconds
   * wins outright and is not capped; otherwise the delay doubles with each
   * attempt from the base delay and is capped at the maximum delay.
   */
  function RetryDelayMs(cfg: RetryConfig, attempt: nat, retryAfter: Option<Uint64>): (ms: nat)
    ensures retryAfter.Some? ==> ms == retryAfter.value * 1000
    ensures retryAfter.None? ==> ms <= cfg.maxDelayMs && ms <= cfg.baseDelayMs * Pow2(attempt)
    ensures retryAfter.None? ==> ms == cfg.maxDelayMs || ms == cfg.baseDelayMs * Pow2(attempt)
  {
    match retryAfter
    case Some(seconds) => seconds * 1000
    case None => Min(cfg.baseDelayMs * Pow2(attempt), cfg.maxDelayMs)
  }

  lemma {:induction false} Pow2Monotone(m: nat, n: nat)
    requires m <= n
    ensures Pow2(m) <= Pow2(n)
    decreases n
  {
    if m < n {
      Pow2Monotone(m, n - 1);
    }
  }

  /** Without a hint, a later attempt never waits less than an earlier one. */
  lemma BackoffMonotone(cfg: RetryConfig, a1: nat, a2: nat)
    requires a1 <= a2
    ensures RetryDelayMs(cfg, a1, None) <= RetryDelayMs(cfg, a2, None)
  {
    Pow2Monotone(a1, a2);
    MultiplyMonotone(cfg.baseDelayMs, Pow2(a1), Pow2(a2));
  }

  /** A hint gives the same delay whatever the attempt and the configuration. */
  lemma HintIgnoresConfig(c1: RetryConfig, c2: RetryConfig, a1: nat, a2: nat, seconds: Uint64)
    ensures RetryDelayMs(c1, a1, Some(seconds)) == RetryDelayMs(c2, a2, Some(seconds)) == seconds * 1000
  {
  }

  lemma {:induction false} Pow2Add(a: nat, b: nat)
    ensures Pow2(a + b) == Pow2(a) * Pow2(b)
    decreases b
  {
    if b > 0 {
      Pow2Add(a, b - 1);
      assert Pow2(a + b) == 2 * Pow2(a + b - 1);
    }
  }

  /**
   * `calculate_retry_delay` exactly as written, built without overflow
   * checks: `2u64.pow(attempt)` and the product with the base delay both
   * wrap modulo 2^64 before the cap is applied. (With overflow checks the
   * same inputs panic instead.)
   */
  function RetryDelayAsWritten(cfg: RetryConfig, attempt: Uint32, retryAfter: Option<Uint64>): (ms: nat)
    ensures retryAfter.Some? ==> ms == retryAfter.value * 1000
    ensures retryAfter.None? ==> ms <= cfg.maxDelayMs && ms < U64_LIMIT
  {
    match retryAfter
    case Some(seconds) => seconds * 1000
    case None => Min((cfg.baseDelayMs * (Pow2(attempt) % U64_LIMIT)) % U64_LIMIT, cfg.maxDelayMs)
  }

  /** While the product fits in 64 bits the code as written computes the intended delay. */
  lemma AsWrittenAgreesWithoutOverflow(cfg: RetryConfig, attempt: Uint32, retryAfter: Option<Uint64>)
    requires cfg.baseDelayMs * Pow2(attempt) < U64_LIMIT
    ensures RetryDelayAsWritten(cfg, attempt, retryAfter) == RetryDelayMs(cfg, attempt, retryAfter)
  {
    var base, p := cfg.baseDelayMs, Pow2(attempt);
    if base > 0 {
      MultiplyMonotone(p, 1, base);
      assert p < U64_LIMIT;
      ModOfSmall(p, U64_LIMIT);
      ModOfSmall(base * p, U64_LIMIT);
    }
  }

  lemma ModOfSmall(x: nat, m: nat)
    requires x < m
    ensures x % m == x
  {
  }

  lemma MultiplyMonotone(k: nat, x: nat, y: nat)
    requires x <= y
    ensures k * x <= k * y
  {
  }

  /**
   * With 62 retries, a one-second base and a five-second cap, the sleep
   * before the 62nd retry (attempt 61) wraps to 0 ms where the cap of
   * 5000 ms is intended, right after a sleep of 5000 ms at attempt 60.
   */
  lemma WrappedDelayAtAttempt61()
    ensures RetryDelayAsWritten(RetryConfig(62, 1000, 5000), 60, None) == 5000
    ensures RetryDelayAsWritten(RetryConfig(62, 1000, 5000), 61, None) == 0
    ensures RetryDelayMs(RetryConfig(62, 1000, 5000), 61, None) == 5000
  {
    assert Pow2(8) == 256;
    Pow2Add(8, 8);
    Pow2Add(16, 16);
    assert Pow2(28) == 0x1000_0000 by {
      Pow2Add(16, 12);
      assert Pow2(12) == 4096;
    }
    Pow2Add(32, 28);
    assert Pow2(60) == 0x1000_0000_0000_0000;
    assert Pow2(61) == 0x2000_0000_0000_0000;
  }

  // ---------------------------------------------------------------------------
  // Replies and the outcome of one reply
  // ---------------------------------------------------------------------------

  datatype Verb = Get | Post | Patch | Delete

  function VerbName(v: Verb): string {
    match v
    case Get => "GET"
    case Post => "POST"
    case Patch => "PATCH"
    case Delete => "DELETE"
  }

  /** POST and PATCH refuse to send without a body; GET and DELETE never look. */
  predicate RequiresBody(v: Verb) {
    v == Post || v == Patch
  }

  function MissingBodyMessage(v: Verb): string {
    "Request body is required for " + VerbName(v) + " requests"
  }

  /**
   * What one send produces: a transport failure, or a status, the parsed
   * `retry-after` header, and what decoding the body would give as `T` and
   * as a JSON error envelope.
   */
  datatype Reply<T> =
    | SendFailed(error: TransportError)
    | Received(status: nat, retryAfter: Option<Uint64>,
               decoded: Result<T, TransportError>, envelope: Result<Json, TransportError>)

  predicate IsSuccess(status: nat) {
    200 <= status <= 299
  }

  predicate IsRateLimit<T>(reply: Reply<T>) {
    reply.Received? && reply.status == StatusTooManyRequests
  }

  /**
   * The API error read from an error envelope: its `code` and `message`
   * strings, defaulting to "unknown" and "Unknown error" when a field is
   * missing or is not a string.
   */
  function ApiErrorFrom(envelope: Json): (e: NotionError)
    ensures e.ApiError?
    ensures e.code == if HasStringField(envelope, "code") then envelope.fields["code"].str else "unknown"
    ensures e.message == if HasStringField(envelope, "message") then envelope.fields["message"].str else "Unknown error"
  {
    ApiError(AsStr(Field(envelope, "code")).GetOr("unknown"),
             AsStr(Field(envelope, "message")).GetOr("Unknown error"))
  }

  /** The result a reply other than a 429 ends the loop with. */
  function Settle<T>(reply: Reply<T>): (r: Result<T, NotionError>)
    requires !IsRateLimit(reply)
    ensures r.Success? <==> reply.Received? && IsSuccess(reply.status) && reply.decoded.Success?
    ensures r.Success? ==> r.value == reply.decoded.value
    ensures r == Failure(Unauthorized) <==> reply.Received? && reply.status == StatusUnauthorized
    ensures r.Failure? ==> r.error.HttpError? || r.error.Unauthorized? || r.error.ApiError?
  {
    match reply
    case SendFailed(e) => Failure(FromTransport(e))
    case Received(status, _, decoded, envelope) =>
      if IsSuccess(status) then
        match decoded
        case Success(v) => Success(v)
        case Failure(e) => Failure(FromTransport(e))
      else if status == StatusUnauthorized then Failure(Unauthorized)
      else
        match envelope
        case Success(env) => Failure(ApiErrorFrom(env))
        case Failure(e) => Failure(FromTransport(e))
  }

  // ---------------------------------------------------------------------------
  // The retry loop, as a function of the script
  // ---------------------------------------------------------------------------

  /** The result of a call, the delays it slept, and how many sends it made. */
  datatype Trace<T> = Trace(result: Result<T, NotionError>, sleeps: seq<nat>, sends: nat)

  /**
   * The loop from attempt `attempt` on, fed the remaining `script`. A 429
   * sleeps and goes round again while retries remain; any other reply ends
   * the loop.
   */
  function Run<T>(cfg: RetryConfig, attempt: nat, script: seq<Reply<T>>): Trace<T>
    requires attempt <= cfg.maxRetries
    requires |script| > cfg.maxRetries - attempt
    decreases |script|
  {
    var reply := script[0];
    if IsRateLimit(reply) then
      if attempt < cfg.maxRetries then
        var rest := Run(cfg, attempt + 1, script[1..]);
        Trace(rest.result, [RetryDelayMs(cfg, attempt, reply.retryAfter)] + rest.sleeps, rest.sends + 1)
      else
        Trace(Failure(RateLimited(reply.retryAfter.GetOr(DefaultRetryAfterSecs))), [], 1)
    else
      Trace(Settle(reply), [], 1)
  }

  /** A whole call: the body check for POST and PATCH, then the loop from attempt 0. */
  function Invoke<T>(cfg: RetryConfig, verb: Verb, body: Option<Json>, script: seq<Reply<T>>): Trace<T>
    requires |script| > cfg.maxRetries
  {
    if RequiresBody(verb) && body.None? then
      Trace(Failure(InvalidRequest(MissingBodyMessage(verb))), [], 0)
    else
      Run(cfg, 0, script)
  }

  /** One step of `Run` on the suffix of the script that starts at `attempt`. */
  lemma RunFrom<T>(cfg: RetryConfig, attempt: nat, script: seq<Reply<T>>)
    requires attempt <= cfg.maxRetries < |script|
    ensures var here, reply := Run(cfg, attempt, script[attempt..]), script[attempt];
      && (!IsRateLimit(reply) ==> here == Trace(Settle(reply), [], 1))
      && (IsRateLimit(reply) && attempt == cfg.maxRetries ==>
            here == Trace(Failure(RateLimited(reply.retryAfter.GetOr(DefaultRetryAfterSecs))), [], 1))
      && (IsRateLimit(reply) && attempt < cfg.maxRetries ==>
            var rest := Run(cfg, attempt + 1, script[attempt + 1..]);
            here == Trace(rest.result, [RetryDelayMs(cfg, attempt, reply.retryAfter)] + rest.sleeps, rest.sends + 1))
  {
    assert script[attempt..][0] == script[attempt] && script[attempt..][1..] == script[attempt + 1..];
  }

  /** How many 429 replies the script starts with. */
  function LeadingRateLimits<T>(script: seq<Reply<T>>): (k: nat)
    ensures k <= |script|
    ensures forall i :: 0 <= i < k ==> IsRateLimit(script[i])
    ensures k < |script| ==> !IsRateLimit(script[k])
    decreases |script|
  {
    if |script| == 0 || !IsRateLimit(script[0]) then 0 else 1 + LeadingRateLimits(script[1..])
  }

  /**
   * What the loop does, stated without the loop: with `budget` retries left
   * and the script opening with `k` rate limits, it sleeps `min(k, budget)`
   * times, at the delays `calculate_retry_delay` gives for the attempts and
   * hints of those replies; it then fails with `RateLimited` if the rate
   * limits outlast the budget, and otherwise ends as the first other reply
   * says.
   */
  lemma {:induction false} RunCharacterised<T>(cfg: RetryConfig, attempt: nat, script: seq<Reply<T>>)
    requires attempt <= cfg.maxRetries
    requires |script| > cfg.maxRetries - attempt
    ensures var t := Run(cfg, attempt, script);
            var k := LeadingRateLimits(script);
            var budget := cfg.maxRetries - attempt;
      && (k > budget ==>
            && t.result == Failure(RateLimited(script[budget].retryAfter.GetOr(DefaultRetryAfterSecs)))
            && |t.sleeps| == budget)
      && (k <= budget ==> t.result == Settle(script[k]) && |t.sleeps| == k)
      && t.sends == |t.sleeps| + 1
      && (forall i :: 0 <= i < |t.sleeps| ==>
            IsRateLimit(script[i]) && t.sleeps[i] == RetryDelayMs(cfg, attempt + i, script[i].retryAfter))
    decreases |script|
  {
    var reply := script[0];
    if IsRateLimit(reply) && attempt < cfg.maxRetries {
      RunCharacterised(cfg, attempt + 1, script[1..]);
      var t := Run(cfg, attempt, script);
      var rest := Run(cfg, attempt + 1, script[1..]);
      assert LeadingRateLimits(script) == 1 + LeadingRateLimits(script[1..]);
      forall i | 0 <= i < |t.sleeps|
        ensures IsRateLimit(script[i]) && t.sleeps[i] == RetryDelayMs(cfg, attempt + i, script[i].retryAfter)
      {
        if i > 0 {
          assert t.sleeps[i] == rest.sleeps[i - 1];
          assert script[1..][i - 1] == script[i];
        }
      }
    }
  }

  /** At most `max_retries` sleeps and at most `max_retries + 1` sends, whatever the replies. */
  lemma RetriesBounded<T>(cfg: RetryConfig, verb: Verb, body: Option<Json>, script: seq<Reply<T>>)
    requires |script| > cfg.maxRetries
    ensures |Invoke(cfg, verb, body, script).sleeps| <= cfg.maxRetries
    ensures Invoke(cfg, verb, body, script).sends <= cfg.maxRetries + 1
  {
    RunCharacterised(cfg, 0, script);
  }

  /** Every sleep is at the delay `calculate_retry_delay` gives for its attempt and its reply's hint. */
  lemma SleepsAreExact<T>(cfg: RetryConfig, verb: Verb, body: Option<Json>, script: seq<Reply<T>>, i: nat)
    requires |script| > cfg.maxRetries
    requires i < |Invoke(cfg, verb, body, script).sleeps|
    ensures i < |script| && IsRateLimit(script[i])
    ensures Invoke(cfg, verb, body, script).sleeps[i] == RetryDelayMs(cfg, i, script[i].retryAfter)
  {
    RunCharacterised(cfg, 0, script);
  }

  /**
   * Up to `max_retries` rate limits followed by a success that decodes:
   * the call returns the decoded value after exactly that many sleeps.
   */
  lemma RateLimitsThenSuccess<T>(cfg: RetryConfig, verb: Verb, body: Option<Json>, script: seq<Reply<T>>, k: nat, v: T)
    requires |script| > cfg.maxRetries
    requires RequiresBody(verb) ==> body.Some?
    requires k <= cfg.maxRetries
    requires forall i :: 0 <= i < k ==> IsRateLimit(script[i])
    requires script[k].Received? && IsSuccess(script[k].status) && script[k].decoded == Success(v)
    ensures Invoke(cfg, verb, body, script).result == Success(v)
    ensures |Invoke(cfg, verb, body, script).sleeps| == k
    ensures Invoke(cfg, verb, body, script).sends == k + 1
  {
    LeadingRateLimitsExact(script, k);
    RunCharacterised(cfg, 0, script);
  }

  lemma {:induction false} LeadingRateLimitsExact<T>(script: seq<Reply<T>>, k: nat)
    requires k < |script|
    requires forall i :: 0 <= i < k ==> IsRateLimit(script[i])
    requires !IsRateLimit(script[k])
    ensures LeadingRateLimits(script) == k
    decreases k
  {
    if k > 0 {
      LeadingRateLimitsExact(script[1..], k - 1);
    }
  }

  lemma {:induction false} LeadingRateLimitsAtLeast<T>(script: seq<Reply<T>>, k: nat)
    requires k <= |script|
    requires forall i :: 0 <= i < k ==> IsRateLimit(script[i])
    ensures LeadingRateLimits(script) >= k
    decreases k
  {
    if k > 0 {
      LeadingRateLimitsAtLeast(script[1..], k - 1);
    }
  }

  /**
   * One rate limit more than `max_retries` allows: the call fails with
   * `RateLimited`, carrying the last reply's hint or 60 seconds.
   */
  lemma RetriesExhausted<T>(cfg: RetryConfig, verb: Verb, body: Option<Json>, script: seq<Reply<T>>)
    requires |script| > cfg.maxRetries
    requires RequiresBody(verb) ==> body.Some?
    requires forall i :: 0 <= i < cfg.maxRetries ==> IsRateLimit(script[i])
    requires IsRateLimit(script[cfg.maxRetries])
    ensures Invoke(cfg, verb, body, script).result
         == Failure(RateLimited(script[cfg.maxRetries].retryAfter.GetOr(DefaultRetryAfterSecs)))
    ensures |Invoke(cfg, verb, body, script).sleeps| == cfg.maxRetries
    ensures Invoke(cfg, verb, body, script).sends == cfg.maxRetries + 1
  {
    LeadingRateLimitsAtLeast(script, cfg.maxRetries + 1);
    RunCharacterised(cfg, 0, script);
  }

  /** A 401 ends the call at once, even with every retry still available. */
  lemma UnauthorizedNeverRetried<T>(cfg: RetryConfig, attempt: nat, script: seq<Reply<T>>)
    requires attempt <= cfg.maxRetries
    requires |script| > cfg.maxRetries - attempt
    requires script[0].Received? && script[0].status == StatusUnauthorized
    ensures Run(cfg, attempt, script) == Trace(Failure(Unauthorized), [], 1)
  {
  }

  /** A transport failure, or a success whose body does not decode, ends the call with `HttpError`. */
  lemma TransportErrorsNotRetried<T>(cfg: RetryConfig, attempt: nat, script: seq<Reply<T>>, e: TransportError)
    requires attempt <= cfg.maxRetries
    requires |script| > cfg.maxRetries - attempt
    requires script[0] == SendFailed(e)
          || (script[0].Received? && IsSuccess(script[0].status) && script[0].decoded == Failure(e))
    ensures Run(cfg, attempt, script) == Trace(Failure(HttpError(e)), [], 1)
  {
  }

  /**
   * Any other error status ends the call with the envelope's API error,
   * or with `HttpError` when the body is not JSON.
   */
  lemma OtherStatusIsApiError<T>(cfg: RetryConfig, attempt: nat, script: seq<Reply<T>>)
    requires attempt <= cfg.maxRetries
    requires |script| > cfg.maxRetries - attempt
    requires script[0].Received?
    requires var s := script[0].status; !IsSuccess(s) && s != StatusTooManyRequests && s != StatusUnauthorized
    ensures script[0].envelope.Success? ==>
      Run(cfg, attempt, script) == Trace(Failure(ApiErrorFrom(script[0].envelope.value)), [], 1)
    ensures script[0].envelope.Failure? ==>
      Run(cfg, attempt, script) == Trace(Failure(HttpError(script[0].envelope.error)), [], 1)
  {
  }

  /** POST and PATCH without a body fail with `InvalidRequest` before any send. */
  lemma MissingBodyFailsBeforeSending<T>(cfg: RetryConfig, verb: Verb, script: seq<Reply<T>>)
    requires |script| > cfg.maxRetries
    requires RequiresBody(verb)
    ensures Invoke(cfg, verb, None, script).result == Failure(InvalidRequest(MissingBodyMessage(verb)))
    ensures Invoke(cfg, verb, None, script).sends == 0
    ensures Invoke(cfg, verb, None, script).sleeps == []
  {
  }

  /** Once the body check passes, the four verbs handle replies identically. */
  lemma VerbsShareTheLoop<T>(cfg: RetryConfig, v1: Verb, v2: Verb, body: Option<Json>, script: seq<Reply<T>>)
    requires |script| > cfg.maxRetries
    requires RequiresBody(v1) ==> body.Some?
    requires RequiresBody(v2) ==> body.Some?
    ensures Invoke(cfg, v1, body, script) == Invoke(cfg, v2, body, script) == Run(cfg, 0, script)
  {
  }

  /**
   * Under the default configuration and without hints the sleeps are
   * 1000, 2000 and 4000 ms in turn: at most three of them, and the
   * 5000 ms cap is never reached.
   */
  lemma DefaultSchedule<T>(verb: Verb, body: Option<Json>, script: seq<Reply<T>>)
    requires |script| > DefaultRetryConfig().maxRetries
    requires forall i :: 0 <= i < |script| && script[i].Received? ==> script[i].retryAfter.None?
    ensures var sleeps := Invoke(DefaultRetryConfig(), verb, body, script).sleeps;
      && |sleeps| <= 3
      && (forall i :: 0 <= i < |sleeps| ==> sleeps[i] == 1000 * Pow2(i) < 5000)
      && (|sleeps| > 0 ==> sleeps[0] == 1000)
      && (|sleeps| > 1 ==> sleeps[1] == 2000)
      && (|sleeps| > 2 ==> sleeps[2] == 4000)
  {
    var cfg := DefaultRetryConfig();
    var sleeps := Invoke(cfg, verb, body, script).sleeps;
    RunCharacterised(cfg, 0, script);
    forall i | 0 <= i < |sleeps| ensures sleeps[i] == 1000 * Pow2(i) < 5000 {
      Pow2Monotone(i, 2);
    }
  }

  /** The loop itself never produces `InvalidRequest`: only the body check does. */
  lemma {:induction false} RunNeverInvalidRequest<T>(cfg: RetryConfig, attempt: nat, script: seq<Reply<T>>)
    requires attempt <= cfg.maxRetries
    requires |script| > cfg.maxRetries - attempt
    ensures !(Run(cfg, attempt, script).result.Failure? && Run(cfg, attempt, script).result.error.InvalidRequest?)
    decreases |script|
  {
    if IsRateLimit(script[0]) && attempt < cfg.maxRetries {
      RunNeverInvalidRequest(cfg, attempt + 1, script[1..]);
    }
  }

  /** A call that carries a body is never refused as invalid. */
  lemma NeverRefusedWithBody<T>(cfg: RetryConfig, verb: Verb, body: Option<Json>, script: seq<Reply<T>>)
    requires |script| > cfg.maxRetries
    requires body.Some?
    ensures Invoke(cfg, verb, body, script) == Run(cfg, 0, script)
    ensures !(Invoke(cfg, verb, body, script).result.Failure? && Invoke(cfg, verb, body, script).result.error.InvalidRequest?)
  {
    RunNeverInvalidRequest(cfg, 0, script);
  }

  // ---------------------------------------------------------------------------
  // The client
  // ---------------------------------------------------------------------------

  /** What one send puts on the wire (headers aside). */
  datatype HttpRequest = HttpRequest(verb: Verb, url: string, payload: Option<Json>)

  class NotionClient {
    var authToken: string
    var retryConfig: RetryConfig

    /** `NotionClient::new`: the token and the default retry configuration. */
    constructor (authToken: string)
      ensures this.authToken == authToken && retryConfig == DefaultRetryConfig()
    {
      this.authToken := authToken;
      retryConfig := DefaultRetryConfig();
    }

    /** `with_retry_config`: replaces the retry configuration, nothing else. */
    method WithRetryConfig(config: RetryConfig)
      modifies this
      ensures retryConfig == config && authToken == old(authToken)
    {
      retryConfig := config;
    }

    /**
     * `get`, `post`, `patch` and `delete` in one: builds the URL, checks for
     * a body where the verb needs one, then runs the retry loop. Every send
     * repeats the same request; the delays slept and the requests sent are
     * logged.
     */
    method Send<T>(verb: Verb, request: RequestBuilder, script: seq<Reply<T>>)
      returns (r: Result<T, NotionError>, ghost sleeps: seq<nat>, ghost sent: seq<HttpRequest>)
      requires |script| > retryConfig.maxRetries
      ensures r == Invoke(retryConfig, verb, request.body, script).result
      ensures sleeps == Invoke(retryConfig, verb, request.body, script).sleeps
      ensures |sent| == Invoke(retryConfig, verb, request.body, script).sends
      ensures forall i :: 0 <= i < |sent| ==> sent[i] == sent[0]
      ensures |sent| > 0 ==>
        && sent[0].verb == verb
        && sent[0].payload == (if RequiresBody(verb) then request.body else None)
        && IsBuiltUrl(sent[0].url, NotionApiBase, request.endpoint, request.queryParams)
    {
      var url;
      ghost var order;
      url, order := request.BuildUrl(NotionApiBase);
      var payload: Option<Json> := None;
      if RequiresBody(verb) {
        var body := request.GetBody();
        if body.None? {
          r, sleeps, sent := Failure(InvalidRequest(MissingBodyMessage(verb))), [], [];
          return;
        }
        payload := body;
      }
      r, sleeps, sent := Retry(HttpRequest(verb, url, payload), script);
    }

    /**
     * The `loop` shared by the four verbs: sends `req` once per iteration,
     * sleeps and retries on 429 while `attempt < max_retries`, and otherwise
     * returns what the reply says.
     */
    method Retry<T>(ghost req: HttpRequest, script: seq<Reply<T>>)
      returns (r: Result<T, NotionError>, ghost sleeps: seq<nat>, ghost sent: seq<HttpRequest>)
      requires |script| > retryConfig.maxRetries
      ensures r == Run(retryConfig, 0, script).result
      ensures sleeps == Run(retryConfig, 0, script).sleeps
      ensures |sent| == Run(retryConfig, 0, script).sends
      ensures forall i :: 0 <= i < |sent| ==> sent[i] == req
    {
      ghost var cfg, total := retryConfig, Run(retryConfig, 0, script);
      var attempt: Uint32 := 0;
      sleeps, sent := [], [];
      while true
        invariant attempt <= cfg.maxRetries
        invariant |sent| == attempt && |sleeps| == attempt
        invariant forall i :: 0 <= i < |sent| ==> sent[i] == req
        invariant var rest := Run(cfg, attempt, script[attempt..]);
          total.result == rest.result && total.sleeps == sleeps + rest.sleeps && total.sends == attempt + rest.sends
        decreases cfg.maxRetries - attempt
      {
        var reply := script[attempt];
        RunFrom(cfg, attempt, script);
        sent := sent + [req];
        assert !IsRateLimit(reply) ==>
          total.result == Settle(reply) && total.sleeps == sleeps && total.sends == |sent|;
        if reply.SendFailed? {
          r := Failure(FromTransport(reply.error));
          return;
        }
        var status := reply.status;
        if IsSuccess(status) {
          match reply.decoded {
            case Success(v) => r := Success(v);
            case Failure(e) => r := Failure(FromTransport(e));
          }
          return;
        }
        if status == StatusTooManyRequests {
          var retryAfter := reply.retryAfter;
          if attempt < retryConfig.maxRetries {
            var delay := RetryDelayMs(retryConfig, attempt, retryAfter);
            ghost var next := Run(cfg, attempt + 1, script[attempt + 1..]);
            assert total.sleeps == (sleeps + [delay]) + next.sleeps by {
              assert sleeps + ([delay] + next.sleeps) == (sleeps + [delay]) + next.sleeps;
            }
            sleeps := sleeps + [delay];
            attempt := attempt + 1;
            continue;
          }
          r := Failure(RateLimited(retryAfter.GetOr(DefaultRetryAfterSecs)));
          return;
        }
        if status == StatusUnauthorized {
          r := Failure(Unauthorized);
          return;
        }
        match reply.envelope {
          case Success(envelope) => r := Failure(ApiErrorFrom(envelope));
          case Failure(e) => r := Failure(FromTransport(e));
        }
        return;
      }
    }

    /** `list_databases`: a GET of the collection endpoint. */
    method ListDatabases<T>(script: seq<Reply<T>>)
      returns (r: Result<T, NotionError>, ghost sleeps: seq<nat>, ghost sent: seq<HttpRequest>)
      requires |script| > retryConfig.maxRetries
      ensures r == Run(retryConfig, 0, script).result
      ensures sleeps == Run(retryConfig, 0, script).sleeps && |sent| == Run(retryConfig, 0, script).sends
      ensures forall i :: 0 <= i < |sent| ==> sent[i] == HttpRequest(Get, NotionApiBase + "/databases", None)
    {
      var request := Database.ListRequest();
      r, sleeps, sent := Send(Get, request, script);
      if |sent| > 0 {
        BuiltUrlWithoutParams(sent[0].url, NotionApiBase, request.endpoint, request.queryParams);
      }
    }

    /** `get_database`: a GET of one database's endpoint. */
    method GetDatabase<T>(databaseId: string, script: seq<Reply<T>>)
      returns (r: Result<T, NotionError>, ghost sleeps: seq<nat>, ghost sent: seq<HttpRequest>)
      requires |script| > retryConfig.maxRetries
      ensures r == Run(retryConfig, 0, script).result
      ensures sleeps == Run(retryConfig, 0, script).sleeps && |sent| == Run(retryConfig, 0, script).sends
      ensures forall i :: 0 <= i < |sent| ==>
        sent[i] == HttpRequest(Get, NotionApiBase + "/databases/" + databaseId, None)
    {
      var request := Database.GetRequest(databaseId);
      r, sleeps, sent := Send(Get, request, script);
      if |sent| > 0 {
        BuiltUrlWithoutParams(sent[0].url, NotionApiBase, request.endpoint, request.queryParams);
      }
    }

    /** `create_database`: a POST of the create body; it always has a body, so it is never refused. */
    method CreateDatabase<T>(parentPageId: string, title: string, properties: Json, script: seq<Reply<T>>)
      returns (r: Result<T, NotionError>, ghost sleeps: seq<nat>, ghost sent: seq<HttpRequest>)
      requires |script| > retryConfig.maxRetries
      ensures r == Run(retryConfig, 0, script).result
      ensures sleeps == Run(retryConfig, 0, script).sleeps && |sent| == Run(retryConfig, 0, script).sends
      ensures !(r.Failure? && r.error.InvalidRequest?)
      ensures forall i :: 0 <= i < |sent| ==>
        sent[i] == HttpRequest(Post, NotionApiBase + "/databases",
                               Some(Database.CreateBody(parentPageId, title, properties)))
    {
      var request := Database.CreateRequest(parentPageId, title, properties);
      assert request.body == Some(Database.CreateBody(parentPageId, title, properties));
      r, sleeps, sent := Send(Post, request, script);
      if |sent| > 0 {
        BuiltUrlWithoutParams(sent[0].url, NotionApiBase, request.endpoint, request.queryParams);
      }
      NeverRefusedWithBody(retryConfig, Post, request.body, script);
    }

    /** `update_database`: a PATCH of the update body; it always has a body, so it is never refused. */
    method UpdateDatabase<T>(databaseId: string, title: Option<string>, properties: Option<Json>, script: seq<Reply<T>>)
      returns (r: Result<T, NotionError>, ghost sleeps: seq<nat>, ghost sent: seq<HttpRequest>)
      requires |script| > retryConfig.maxRetries
      ensures r == Run(retryConfig, 0, script).result
      ensures sleeps == Run(retryConfig, 0, script).sleeps && |sent| == Run(retryConfig, 0, script).sends
      ensures !(r.Failure? && r.error.InvalidRequest?)
      ensures forall i :: 0 <= i < |sent| ==>
        && sent[i].verb == Patch
        && sent[i].url == NotionApiBase + "/databases/" + databaseId
        && sent[i].payload == Some(Database.UpdateBody(title, properties))
    {
      var request := Database.UpdateRequest(databaseId, title, properties);
      r, sleeps, sent := Send(Patch, request, script);
      if |sent| > 0 {
        BuiltUrlWithoutParams(sent[0].url, NotionApiBase, request.endpoint, request.queryParams);
      }
      NeverRefusedWithBody(retryConfig, Patch, request.body, script);
    }

    /** `query_database`: a POST of the serialised query to the query endpoint. */
    method QueryDatabase<T>(databaseId: string, query: Database.DatabaseQuery, script: seq<Reply<T>>)
      returns (r: Result<T, NotionError>, ghost sleeps: seq<nat>, ghost sent: seq<HttpRequest>)
      requires |script| > retryConfig.maxRetries
      ensures r == Run(retryConfig, 0, script).result
      ensures sleeps == Run(retryConfig, 0, script).sleeps && |sent| == Run(retryConfig, 0, script).sends
      ensures !(r.Failure? && r.error.InvalidRequest?)
      ensures forall i :: 0 <= i < |sent| ==>
        sent[i] == HttpRequest(Post, NotionApiBase + "/databases/" + databaseId + "/query",
                               Some(Database.QueryJson(query)))
    {
      var request := Database.QueryRequest(databaseId, query);
      r, sleeps, sent := Send(Post, request, script);
      if |sent| > 0 {
        BuiltUrlWithoutParams(sent[0].url, NotionApiBase, request.endpoint, request.queryParams);
      }
      NeverRefusedWithBody(retryConfig, Post, request.body, script);
    }
  }
}
