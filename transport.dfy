/**
 * The REST client's transport layer: client construction with its defaults, the retry
 * decision for failed requests, exponential backoff, and the normalisation of every
 * failure into the error taxonomy.
 */
module Transport {
  import opened Wrappers
  import opened Js
  import opened Http
  import opened Errors
  import opened Auth

  const DefaultBaseUrl := "https://api.datashift.io"
  const DefaultTimeout := 30000
  const DefaultRetries := 3
  const DefaultRetryDelay := 1000
  const NetworkErrorMessage := "Network error: Unable to reach Datashift API"
  const NotFoundResource := "Resource"

  /** What a caller passes to the client's constructor; every field but the key is optional. */
  datatype ClientConfig = ClientConfig(
    apiKey: string,
    baseUrl: Option<string>,
    timeout: Option<int>,
    retries: Option<int>,
    retryDelay: Option<int>)

  /** A constructed client: its credential, the HTTP instance's settings and the retry policy. */
  datatype Client = Client(
    apiKey: string,
    baseUrl: string,
    timeout: int,
    retries: int,
    retryDelay: int,
    headers: Headers)

  /**
   * The client's constructor: validates the key before anything else (throwing its
   * message), then fills every omitted setting with its default (`??`, so an explicit 0 stays).
   */
  function NewClient(config: ClientConfig): (r: Result<Client, string>)
    ensures r.Failure? <==> !StartsWith(config.apiKey, KeyPrefix)
    ensures r.Failure? ==> r.error == ValidateApiKey(config.apiKey).error
    ensures r.Success? ==> && r.value.apiKey == config.apiKey
                           && r.value.retries == (if config.retries.Some? then config.retries.value else 3)
                           && r.value.retryDelay == (if config.retryDelay.Some? then config.retryDelay.value else 1000)
                           && r.value.timeout == (if config.timeout.Some? then config.timeout.value else 30000)
                           && r.value.baseUrl == (if config.baseUrl.Some? then config.baseUrl.value else DefaultBaseUrl)
                           && r.value.headers == map["Content-Type" := "application/json"]
  {
    match ValidateApiKey(config.apiKey)
    case Fail(message) => Failure(message)
    case Pass =>
      Success(Client(
        config.apiKey,
        config.baseUrl.GetOr(DefaultBaseUrl),
        config.timeout.GetOr(DefaultTimeout),
        config.retries.GetOr(DefaultRetries),
        config.retryDelay.GetOr(DefaultRetryDelay),
        map["Content-Type" := "application/json"]))
  }

  /** `shouldRetry`: no response at all, or a 5xx status. */
  predicate ShouldRetry(f: AxiosFailure)
    ensures ShouldRetry(f) <==> f.response.None? || f.response.value.status / 100 == 5
  {
    f.response.None? || (500 <= f.response.value.status && f.response.value.status < 600)
  }

  /** The interceptor's whole retry condition for a request whose counter stands at `count`. */
  predicate RetryWanted(c: Client, count: nat, f: AxiosFailure)
    ensures RetryWanted(c, count, f) ==> AttemptBound(c.retries, count) == AttemptBound(c.retries, count + 1) + 1
    ensures RetryWanted(c, count, f) ==> f.response.None? || f.response.value.status / 100 == 5
  {
    f.hasConfig && ShouldRetry(f) && count < c.retries
  }

  function Pow2(k: nat): (p: nat)
    ensures p >= 1
  {
    if k == 0 then 1 else 2 * Pow2(k - 1)
  }

  /** The sleep before the retry taken when the counter stands at `retryCount`. */
  function BackoffDelay(retryDelay: int, retryCount: nat): (d: int)
    ensures retryCount == 0 ==> d == retryDelay
    ensures retryDelay >= 0 ==> d >= retryDelay
  {
    retryDelay * Pow2(retryCount)
  }

  lemma DefaultBackoffDelays()
    ensures BackoffDelay(DefaultRetryDelay, 0) == 1000
    ensures BackoffDelay(DefaultRetryDelay, 1) == 2000
    ensures BackoffDelay(DefaultRetryDelay, 2) == 4000
  {
  }

  /** Each further retry waits twice as long as the one before. */
  lemma BackoffDoubles(retryDelay: int, retryCount: nat)
    ensures BackoffDelay(retryDelay, retryCount + 1) == 2 * BackoffDelay(retryDelay, retryCount)
  {
  }

  /** `data?.field` for each body field the mapping reads. */
  function BodyMessage(data: Option<Body>): Option<string> { if data.Some? then data.value.message else None }
  function BodyCode(data: Option<Body>): Option<string> { if data.Some? then data.value.code else None }
  function BodyEntityId(data: Option<Body>): Option<string> { if data.Some? then data.value.entityId else None }
  function BodyErrors(data: Option<Body>): Option<FieldErrors> { if data.Some? then data.value.errors else None }
  function BodyRetryAfter(data: Option<Body>): Option<int> { if data.Some? then data.value.retryAfter else None }

  /** The whole body as an error's `data`. */
  function BodyPayload(data: Option<Body>): Payload { if data.Some? then BodyData(data.value) else NoData }

  /** `data?.message || error.message`. */
  function FailureMessage(f: AxiosFailure): (m: string)
    requires f.response.Some?
    ensures TruthyString(BodyMessage(f.response.value.data)) ==> m == BodyMessage(f.response.value.data).value
    ensures !TruthyString(BodyMessage(f.response.value.data)) ==> m == f.message
    ensures m == "" <==> !TruthyString(BodyMessage(f.response.value.data)) && f.message == ""
  {
    var m := BodyMessage(f.response.value.data);
    if TruthyString(m) then m.value else f.message
  }

  /** The statuses `transformError` maps onto `ServerError`. */
  predicate IsServerStatus(s: int) {
    s == 500 || s == 502 || s == 503 || s == 504
  }

  /** The statuses with a specialised error class. */
  predicate IsMappedStatus(s: int) {
    s == 401 || s == 404 || s == 400 || s == 429 || IsServerStatus(s)
  }

  predicate HasStatus(f: AxiosFailure, s: int) {
    f.response.Some? && f.response.value.status == s
  }

  /**
   * `transformError`: total over failures; the result always conforms to the taxonomy,
   * is never a timeout, and reports the response status except that every status mapped
   * onto `ServerError` reports 500.
   */
  function TransformError(f: AxiosFailure): (e: DatashiftError)
    ensures Conforms(e) && !e.kind.Timeout?
    ensures f.response.None? ==> && e.kind == Base && e.status == None
                                 && e.code == Some("NETWORK_ERROR") && e.message == NetworkErrorMessage
                                 && e.data == NoData
    ensures f.response.Some? ==>
              e.status == Some(if IsServerStatus(f.response.value.status) then 500 else f.response.value.status)
    ensures HasStatus(f, 401) ==> e.kind == Authentication && e.message == FailureMessage(f)
    ensures HasStatus(f, 404) ==>
              e.kind == NotFound && e.message == NotFoundMessage(NotFoundResource, BodyEntityId(f.response.value.data))
    ensures HasStatus(f, 400) ==>
              e.kind == Validation(BodyErrors(f.response.value.data)) && e.message == FailureMessage(f)
    ensures HasStatus(f, 429) ==>
              e.kind == RateLimit(BodyRetryAfter(f.response.value.data)) && e.message == RateLimitMessage
    ensures f.response.Some? && IsServerStatus(f.response.value.status) ==>
              e.kind == Server && e.message == FailureMessage(f)
    ensures f.response.Some? && !IsMappedStatus(f.response.value.status) ==>
              && e.kind == Base && e.message == FailureMessage(f)
              && e.code == BodyCode(f.response.value.data) && e.data == BodyPayload(f.response.value.data)
  {
    if f.response.None? then
      NewDatashiftError(NetworkErrorMessage, None, Some("NETWORK_ERROR"), NoData)
    else
      var status := f.response.value.status;
      var data := f.response.value.data;
      var message := FailureMessage(f);
      if status == 401 then NewAuthenticationError(Some(message))
      else if status == 404 then NewNotFoundError(NotFoundResource, BodyEntityId(data))
      else if status == 400 then NewValidationError(message, BodyErrors(data))
      else if status == 429 then NewRateLimitError(BodyRetryAfter(data))
      else if IsServerStatus(status) then NewServerError(Some(message))
      else NewDatashiftError(message, Some(status), BodyCode(data), BodyPayload(data))
  }

  /** How one logical request ended: its result, the sleeps between attempts, and the attempt count. */
  datatype Exchange = Exchange(result: Result<Response, DatashiftError>, delays: seq<int>, attempts: nat)

  /** How many attempts a request whose counter stands at `count` can take at most. */
  function AttemptBound(retries: int, count: nat): nat {
    if count < retries then retries - count + 1 else 1
  }

  /** The result of a single attempt that is not retried. */
  function Settle(a: Attempt): Result<Response, DatashiftError> {
    match a
    case Delivered(response) => Success(response)
    case Failed(f) => Failure(TransformError(f))
  }

  /**
   * The response interceptor's behaviour over the attempts' outcomes, as a recursive
   * definition: a retried failure sleeps, bumps the counter and re-issues; anything else settles.
   */
  function Run(c: Client, count: nat, attempts: seq<Attempt>): (x: Exchange)
    requires |attempts| >= AttemptBound(c.retries, count)
    ensures 1 <= x.attempts <= |attempts| && |x.delays| == x.attempts - 1
    decreases |attempts|
  {
    match attempts[0]
    case Delivered(response) => Exchange(Success(response), [], 1)
    case Failed(f) =>
      if RetryWanted(c, count, f) then
        var rest := Run(c, count + 1, attempts[1..]);
        Exchange(rest.result, [BackoffDelay(c.retryDelay, count)] + rest.delays, rest.attempts + 1)
      else
        Exchange(Failure(TransformError(f)), [], 1)
  }

  /**
   * What `Run` does, attempt by attempt: every attempt but the last is a failure the
   * interceptor wants to retry, the k-th sleep is `retryDelay * 2^(count + k)`, the counter
   * never passes `retries`, and the last attempt settles the result without being retried.
   */
  lemma {:induction false} RunShape(c: Client, count: nat, attempts: seq<Attempt>)
    requires |attempts| >= AttemptBound(c.retries, count)
    ensures var x := Run(c, count, attempts);
      && (forall k :: 0 <= k < |x.delays| ==> x.delays[k] == BackoffDelay(c.retryDelay, count + k))
      && (x.delays == [] || count + |x.delays| <= c.retries)
      && (forall k :: 0 <= k < x.attempts - 1 ==>
            attempts[k].Failed? && RetryWanted(c, count + k, attempts[k].error))
      && x.result == Settle(attempts[x.attempts - 1])
      && (attempts[x.attempts - 1].Failed? ==>
            !RetryWanted(c, count + x.attempts - 1, attempts[x.attempts - 1].error))
    decreases |attempts|
  {
    var x := Run(c, count, attempts);
    if attempts[0].Failed? && RetryWanted(c, count, attempts[0].error) {
      var tail := attempts[1..];
      RunShape(c, count + 1, tail);
      var rest := Run(c, count + 1, tail);
      assert x.delays == [BackoffDelay(c.retryDelay, count)] + rest.delays;
      forall k | 0 <= k < |x.delays|
        ensures x.delays[k] == BackoffDelay(c.retryDelay, count + k)
      {
        if k > 0 { assert x.delays[k] == rest.delays[k - 1]; }
      }
      forall k | 0 <= k < x.attempts - 1
        ensures attempts[k].Failed? && RetryWanted(c, count + k, attempts[k].error)
      {
        if k > 0 { assert attempts[k] == tail[k - 1]; }
      }
      assert attempts[x.attempts - 1] == tail[rest.attempts - 1];
    }
  }

  /** Only transient failures (no response, or a 5xx status) are ever retried; no 4xx is. */
  lemma RetriedAttemptsAreTransient(c: Client, count: nat, attempts: seq<Attempt>, k: nat)
    requires |attempts| >= AttemptBound(c.retries, count)
    requires k + 1 < Run(c, count, attempts).attempts
    ensures attempts[k].Failed?
    ensures var f := attempts[k].error;
      f.response.None? || (500 <= f.response.value.status < 600)
  {
    RunShape(c, count, attempts);
  }

  /**
   * When every attempt fails transiently, the request takes exactly `retries - count`
   * retries (`retries + 1` attempts for a fresh request) and surfaces the last failure.
   */
  lemma {:induction false} RunExhaustsRetries(c: Client, count: nat, attempts: seq<Attempt>)
    requires count <= c.retries
    requires |attempts| >= AttemptBound(c.retries, count)
    requires forall k :: 0 <= k < |attempts| ==>
               attempts[k].Failed? && attempts[k].error.hasConfig && ShouldRetry(attempts[k].error)
    ensures Run(c, count, attempts).attempts == c.retries - count + 1
    ensures |Run(c, count, attempts).delays| == c.retries - count
    ensures Run(c, count, attempts).result == Failure(TransformError(attempts[c.retries - count].error))
    decreases |attempts|
  {
    if count < c.retries {
      var tail := attempts[1..];
      assert forall k :: 0 <= k < |tail| ==> tail[k] == attempts[k + 1];
      RunExhaustsRetries(c, count + 1, tail);
      assert tail[c.retries - (count + 1)] == attempts[c.retries - count];
    }
  }

  /** A failure that is not retried (in particular any 4xx) settles on the first attempt. */
  lemma RunNotRetried(c: Client, count: nat, attempts: seq<Attempt>)
    requires |attempts| >= AttemptBound(c.retries, count)
    requires attempts[0].Failed? && !ShouldRetry(attempts[0].error)
    ensures Run(c, count, attempts) == Exchange(Failure(TransformError(attempts[0].error)), [], 1)
  {
  }

  /**
   * Two 500s then a 200 with three retries allowed and a 1000 ms base: the 200 is returned
   * after exactly two retries, sleeping 1000 then 2000 ms (`unused` is never reached).
   */
  lemma RetryThenSucceed(c: Client, failure: AxiosFailure, ok: Response, unused: Attempt)
    requires c.retries == 3 && c.retryDelay == 1000
    requires failure.hasConfig && HasStatus(failure, 500)
    ensures Run(c, 0, [Failed(failure), Failed(failure), Delivered(ok), unused])
            == Exchange(Success(ok), [1000, 2000], 3)
  {
    var attempts := [Failed(failure), Failed(failure), Delivered(ok), unused];
    assert attempts[1..][1..] == [Delivered(ok), unused];
    assert Run(c, 2, attempts[1..][1..]) == Exchange(Success(ok), [], 1);
    assert Run(c, 1, attempts[1..]) == Exchange(Success(ok), [2000], 2);
  }

  /** A status outside 5xx that is not mapped (say 501 or 505) is retried first, then
      surfaces as a base error with its own status. */
  lemma UnmappedServerStatusSurfaces(c: Client, attempts: seq<Attempt>, status: int)
    requires 0 <= c.retries && |attempts| == c.retries + 1
    requires 500 <= status < 600 && !IsServerStatus(status)
    requires forall k :: 0 <= k < |attempts| ==>
               attempts[k].Failed? && attempts[k].error.hasConfig && HasStatus(attempts[k].error, status)
    ensures Run(c, 0, attempts).attempts == c.retries + 1
    ensures Run(c, 0, attempts).result.Failure?
    ensures Run(c, 0, attempts).result.error.kind == Base
    ensures Run(c, 0, attempts).result.error.status == Some(status)
  {
    RunExhaustsRetries(c, 0, attempts);
  }

  /** Appends the sleeps and attempts already taken in front of the rest of an exchange. */
  function Continue(delays: seq<int>, x: Exchange): Exchange {
    Exchange(x.result, delays + x.delays, |delays| + x.attempts)
  }

  /** After `i` retries of a request whose counter started at `count0`, what remains of `Run`. */
  ghost predicate SendProgress(c: Client, count0: nat, attempts: seq<Attempt>, delays: seq<int>, i: nat) {
    && |attempts| >= AttemptBound(c.retries, count0)
    && |attempts| - i >= AttemptBound(c.retries, count0 + i)
    && Run(c, count0, attempts) == Continue(delays, Run(c, count0 + i, attempts[i..]))
  }

  /** The loop of `Send` after `i` retries, taking one more retry. */
  lemma RunAdvance(c: Client, count0: nat, attempts: seq<Attempt>, delays: seq<int>, i: nat)
    requires SendProgress(c, count0, attempts, delays, i)
    requires i < |attempts| && attempts[i].Failed? && RetryWanted(c, count0 + i, attempts[i].error)
    ensures SendProgress(c, count0, attempts, delays + [BackoffDelay(c.retryDelay, count0 + i)], i + 1)
  {
    var suffix := attempts[i..];
    assert suffix[0] == attempts[i] && suffix[1..] == attempts[i + 1..];
    var rest := Run(c, count0 + i + 1, suffix[1..]);
    assert Run(c, count0 + i, suffix) == Continue([BackoffDelay(c.retryDelay, count0 + i)], rest);
    assert delays + ([BackoffDelay(c.retryDelay, count0 + i)] + rest.delays)
        == (delays + [BackoffDelay(c.retryDelay, count0 + i)]) + rest.delays;
  }

  /** The loop of `Send` after `i` retries, settling at the next attempt. */
  lemma RunFinish(c: Client, count0: nat, attempts: seq<Attempt>, delays: seq<int>, i: nat)
    requires SendProgress(c, count0, attempts, delays, i) && |delays| == i && i < |attempts|
    requires attempts[i].Delivered? || !RetryWanted(c, count0 + i, attempts[i].error)
    ensures Run(c, count0, attempts) == Exchange(Settle(attempts[i]), delays, i + 1)
  {
    var suffix := attempts[i..];
    assert suffix[0] == attempts[i];
    assert Run(c, count0 + i, suffix) == Exchange(Settle(attempts[i]), [], 1);
    assert delays + [] == delays;
  }

  /**
   * One logical request through both interceptors: before each attempt the bearer header
   * is (re)written; a failure the interceptor retries sleeps `retryDelay * 2^retryCount`, bumps
   * the counter kept on the request's configuration and re-issues; anything else settles.
   * `attempts[i]` is what the i-th attempt produced.
   */
  method Send(c: Client, config: RequestConfig, attempts: seq<Attempt>) returns (x: Exchange)
    requires |attempts| >= AttemptBound(c.retries, config.retryCount)
    modifies config
    ensures x == Run(c, old(config.retryCount), attempts)
    ensures config.retryCount == old(config.retryCount) + |x.delays|
    ensures config.headers == WithAuthorization(old(config.headers), c.apiKey)
  {
    ghost var count0 := config.retryCount;
    ghost var headers0 := config.headers;
    var i: nat := 0;
    var delays: seq<int> := [];
    AttachAuthorization(config, c.apiKey);
    while true
      invariant config.retryCount == count0 + i && |delays| == i
      invariant SendProgress(c, count0, attempts, delays, i)
      invariant config.headers == WithAuthorization(headers0, c.apiKey)
      decreases |attempts| - i
    {
      var attempt := attempts[i];
      var retryCount := config.retryCount;
      if attempt.Failed? && RetryWanted(c, retryCount, attempt.error) {
        var b := BackoffDelay(c.retryDelay, retryCount);
        RunAdvance(c, count0, attempts, delays, i);
        config.retryCount := retryCount + 1;
        delays := delays + [b];
        i := i + 1;
        WithAuthorizationIdempotent(headers0, c.apiKey);
        AttachAuthorization(config, c.apiKey);
      } else {
        RunFinish(c, count0, attempts, delays, i);
        x := Exchange(Settle(attempt), delays, i + 1);
        break;
      }
    }
  }

  /** A request from a fresh client carries exactly the JSON content type and the bearer header. */
  lemma ClientRequestHeaders(config: ClientConfig)
    requires NewClient(config).Success?
    ensures WithAuthorization(NewClient(config).value.headers, config.apiKey)
         == map["Content-Type" := "application/json", AuthorizationHeader := BearerValue(config.apiKey)]
  {
  }

  /**
   * One request through the client instance: its configuration starts from the instance's
   * default headers with the retry counter unset (0), then goes through both interceptors.
   * Returns the exchange and the headers the last attempt was sent with.
   */
  method Request(c: Client, attempts: seq<Attempt>) returns (x: Exchange, headers: Headers)
    requires |attempts| >= AttemptBound(c.retries, 0)
    ensures x == Run(c, 0, attempts)
    ensures headers == WithAuthorization(c.headers, c.apiKey)
  {
    var config := new RequestConfig(c.headers);
    x := Send(c, config, attempts);
    headers := config.headers;
  }
}
