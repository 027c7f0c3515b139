# Datashift TypeScript SDK — verified model of its request core

This project models, in Dafny, the sequential core of the Datashift REST client, a client library
for a human-review task API:

- the **error taxonomy** (`DatashiftError` and its six specialisations), as one record with a kind tag;
- **API-key validation** and the **bearer header** written on every outbound request;
- the **transport**: client construction with its defaults, the retry decision for failed requests,
  exponential backoff with a per-request counter kept on the request's configuration, and the
  normalisation of every failure into the taxonomy;
- the **task resource**: the `submit` body, the `list` query, and `waitForReview`, the polling loop
  with a growing, capped interval;
- the **review resource**: the `list` query with its eight optional filters and the `get` path.

Foreign calls become parameters. The HTTP library's outcomes for successive attempts of one
request are a sequence of `Attempt`s (a response, or a failure with or without a response).
`sleep` becomes a recorded delay. `Date.now()` becomes a sequence of elapsed-time readings, one
per evaluation of the polling loop's guard, and the status projection becomes a sequence of
task states, one per poll.

Modules: `Wrappers` (Option, Result, Outcome), `Js` (truthiness, integer `toString`), `Http`
(stand-ins for the HTTP library: bodies, responses, failures, the `RequestConfig` object the
interceptors mutate, the `SearchParams` buffer), `Errors`, `Auth`, `Transport`, `Tasks`, `Reviews`.

Two behaviours of the code worth stating up front:
- only the single prefix `sk_` is accepted for API keys (src/auth/api-key.ts:21);
- the task type declares the states `pending`, `queued` and `completed`
  (src/types/index.ts:2), but the polling loop waits for `reviewed`. The model keeps the state a
  string and tests for `reviewed`. `Tasks.WaitForReview` proves that if the server only ever
  reports the declared states, the wait always times out.

## Model

| member | source | states |
|---|---|---|
| `Errors.NewDatashiftError` | src/errors.ts:4-14 | the base error keeps exactly the message, status, code and data it is given |
| `Errors.NewAuthenticationError` | src/errors.ts:19-25 | status 401, code `AUTHENTICATION_ERROR`; an absent message becomes `'Authentication failed'` |
| `Errors.NewNotFoundError` | src/errors.ts:30-35 | status 404, code `NOT_FOUND`; the message is `<resource> '<id>' not found` for a truthy id, else `<resource> not found` |
| `Errors.NotFoundMessage` | src/errors.ts:32 | the message starts with the resource and ends with ` not found`, with ` '<id>'` between exactly when the id is truthy |
| `Errors.NotFoundMessageRoundTrip` | src/errors.ts:32 | the id can be read back from a not-found message exactly when it was truthy |
| `Errors.NotFoundMessageInjective` | src/errors.ts:32 | distinct truthy ids give distinct not-found messages |
| `Errors.NewValidationError` | src/errors.ts:41-48 | status 400, code `VALIDATION_ERROR`; its data is its errors map (none when absent) |
| `Errors.NewTimeoutError` | src/errors.ts:53-59 | status 408, code `TIMEOUT`; an absent message becomes `'Operation timed out'` |
| `Errors.NewRateLimitError` | src/errors.ts:64-71 | always `'Rate limit exceeded'`, status 429, code `RATE_LIMITED`; `retryAfter` kept unchanged |
| `Errors.NewServerError` | src/errors.ts:76-81 | always status 500, code `SERVER_ERROR`; an absent message becomes `'Internal server error'` |
| `Errors.CodeDeterminesKind` | src/errors.ts:19-81 | two conforming specialised errors with the same code are of the same class |
| `Auth.ValidateApiKey` | src/auth/api-key.ts:16-24 | passes exactly the keys starting with `sk_`; the empty key fails with `'API key is required'`; any other non-`sk_` key fails with the format message |
| `Auth.WithAuthorization` | src/auth/api-key.ts:7-10 | `Authorization` becomes `Bearer <key>`, replacing any earlier value; no other header is added, removed or changed |
| `Auth.WithAuthorizationIdempotent` | src/auth/api-key.ts:7-10 | running the interceptor again on a re-issued request changes nothing |
| `Auth.AttachAuthorization` | src/auth/api-key.ts:7-10 | the request's headers are rewritten as above, in place; its retry counter is untouched |
| `Transport.NewClient` | src/rest-client.ts:50-65 | fails with the validator's message exactly for keys without the `sk_` prefix; otherwise omitted settings take the defaults (3 retries, 1000 ms base delay, 30000 ms timeout, the production URL) and explicit values, 0 included, are kept |
| `Transport.ShouldRetry` | src/rest-client.ts:97-101 | a failure is transient exactly when it has no response or its status lies in the 5xx range |
| `Transport.BackoffDelay` | src/rest-client.ts:86 | the first retry waits the base delay, and no retry waits less than a non-negative base |
| `Transport.RetryWanted` | src/rest-client.ts:82-84 | a retry is taken only for a transient (no response or 5xx) failure and while the counter is below `retries`, so each one uses up one of the remaining attempts |
| `Transport.DefaultBackoffDelays` | src/rest-client.ts:19 | with the default base the first three retries wait 1000, 2000 and 4000 ms |
| `Transport.BackoffDoubles` | src/rest-client.ts:86 | each retry waits twice as long as the previous one |
| `Transport.FailureMessage` | src/rest-client.ts:114 | the body's `message` when it is truthy, otherwise the transport's own message; empty only when both are empty or absent |
| `Transport.TransformError` | src/rest-client.ts:103-133 | total: no response gives a base error with no status and code `NETWORK_ERROR`; 401, 404 (`'Resource'` and `entityId`), 400 (`errors`), 429 (`retryAfter`) and 500/502/503/504 map to their classes; any other status gives a base error keeping status, `data.code` and the body; the message is `data.message` when truthy, else the transport's; the reported status is the response's, except 500 for every server-mapped status; never a timeout |
| `Transport.Run` | src/rest-client.ts:79-93 | a request ends after at least one attempt and at most as many as supplied, with one sleep per retry |
| `Transport.RunShape` | src/rest-client.ts:82-92 | every attempt but the last is a failure the interceptor retries; the k-th sleep is `retryDelay * 2^(count+k)`; the counter never passes `retries`; the last attempt settles the result and is not retried |
| `Transport.RetriedAttemptsAreTransient` | src/rest-client.ts:97-101 | only failures with no response or a 5xx status are retried, so no 4xx is |
| `Transport.RunExhaustsRetries` | src/rest-client.ts:82-92 | when every attempt fails transiently, exactly `retries` retries (`retries + 1` attempts) happen and the last failure is mapped |
| `Transport.RunNotRetried` | src/rest-client.ts:82-92 | a failure that is not retryable settles on the first attempt with no sleep |
| `Transport.RetryThenSucceed` | src/rest-client.ts:82-88 | two 500s then a 200 with 3 retries and a 1000 ms base: the 200 after two retries, sleeping 1000 then 2000 ms |
| `Transport.UnmappedServerStatusSurfaces` | src/rest-client.ts:97-131 | a 501 or 505–599 status is retried until retries are exhausted, then surfaces as a base error with its own status |
| `Transport.Send` | src/rest-client.ts:76-95 | the interceptor loop over the attempts (bearer header rewritten before each attempt, counter bumped in place per retry) behaves as `Run`; the counter grows by exactly the number of retries |
| `Transport.Request` | src/rest-client.ts:56-65 | a request starts from the instance's default headers with the counter at 0 and behaves as `Run` from 0; it ends with the defaults plus the bearer header |
| `Transport.ClientRequestHeaders` | src/rest-client.ts:59-65 | the headers the SDK itself sets on a fresh client's request are exactly `Content-Type: application/json` and `Authorization: Bearer <key>` |
| `Http.RequestConfig.constructor` | src/rest-client.ts:83 | a fresh request's retry counter starts at 0 |
| `Http.FormatQueryEmpty` | src/resources/task.ts:58-59 | the query string is empty exactly when no parameter was appended |
| `Http.KeepTruthyAppend` | src/resources/review.ts:13-30 | the parameters of two groups of filters come out group by group, in order |
| `Http.KeepTruthyMember` | src/resources/review.ts:13-30 | a parameter is emitted exactly when it is a filter whose value is truthy |
| `Http.KeepTruthyEmpty` | src/resources/review.ts:13-30 | nothing is emitted exactly when no filter is truthy |
| `Http.BareQueryPath` | src/resources/review.ts:32-33 | a path built from conditional appends has no `?` exactly when no value is truthy |
| `Http.PathWithQuery` | src/resources/review.ts:32-33 | the path starts with the base; it is the bare base exactly when the query string is empty, and otherwise the base, `?` and the query string |
| `Http.SearchParams.AppendIfTruthy` | src/resources/task.ts:55-56 | appends the pair only when the value is truthy |
| `Tasks.SubmitBody` | src/resources/task.ts:22-32 | the posted body carries `queue_key` and `data`; `context` and `metadata` are `{}` when omitted and the given maps otherwise; `summary` and `external_id` appear only when given |
| `Tasks.ListPath` | src/resources/task.ts:53-61 | `queue_id` then `state`, each only when truthy; the path is bare `/task` exactly when neither is truthy |
| `Tasks.Settings` | src/resources/task.ts:67 | each wait option takes the given value, or its default (300000 ms, 2000 ms, 30000 ms) when omitted |
| `Tasks.IntervalAt` | src/resources/task.ts:69-83 | the first sleep is `pollInterval` itself; the bound, sign, growth and cap of later sleeps are the `Interval` lemmas below |
| `Tasks.IntervalCapped` | src/resources/task.ts:83 | after the first update the interval never exceeds `maxPollInterval` |
| `Tasks.IntervalNonNegative` | src/resources/task.ts:69-83 | non-negative settings keep every interval non-negative |
| `Tasks.IntervalNonDecreasing` | src/resources/task.ts:83 | with `0 <= pollInterval <= maxPollInterval` the intervals never shrink |
| `Tasks.NegativeIntervalShrinks` | src/resources/task.ts:83 | with a negative `pollInterval` the intervals shrink, so the bound above needs non-negativity |
| `Tasks.IntervalStaysAtCap` | src/resources/task.ts:83 | once the interval reaches a non-negative cap it stays there |
| `Tasks.DefaultIntervals` | src/resources/task.ts:10-14 | with the defaults the sleeps are 2000, 3000, 4500, … and 30000 from the eighth on |
| `Tasks.TimeoutMessage` | src/resources/task.ts:86-88 | the message begins `Task <id>`, ends `ms`, and carries the timeout's decimal digits right before `ms` |
| `Tasks.PollUntilReviewed` | src/resources/task.ts:71-84 | each poll follows a guard reading below the timeout; the loop stops at the first poll reporting `reviewed` or at the first reading at or past the timeout; one status request per poll; the k-th sleep is the k-th interval |
| `Tasks.WaitForReview` | src/resources/task.ts:66-89 | each poll follows a guard reading below the timeout; it returns the full task from the first poll reporting `reviewed`, with exactly one `get` after it; otherwise it fails with a `TimeoutError` naming the task and the timeout, once a reading reaches it; the k-th sleep is the k-th interval; no status request is made when the first reading is already at the timeout, and so none at all for `timeout <= 0`; only the declared states mean it always times out |
| `Js.NatDigitsValue` | src/resources/review.ts:29-30 | the decimal digits `toString` writes for a natural number spell that number |
| `Js.DecimalStringValue` | src/resources/task.ts:87 | the decimal text of an integer spells it, after a `-` when it is negative |
| `Reviews.NumberParam` | src/resources/review.ts:29-30 | a numeric filter is emitted exactly when non-zero, as its decimal text |
| `Reviews.ListPath` | src/resources/review.ts:10-35 | the truthy filters in the order `task_id, reviewer_id, queue_key, reviewer_type, created_after, created_before, limit, offset`, dates passed through unchanged; bare `/review` exactly when every filter is falsy |
| `Reviews.EmitsInOrder` | src/resources/review.ts:13-30 | the eight conditional appends emit the candidates one by one, in order |
| `Reviews.BareListPath` | src/resources/review.ts:32-33 | the path has no `?` exactly when no filter is truthy |
| `Reviews.FalsyFiltersOmitted` | src/resources/review.ts:13-30 | a falsy filter (absent, `''` or `0`) adds no parameter under its key, for each of the eight filters |
| `Reviews.TruthyFiltersKept` | src/resources/review.ts:13-28 | a truthy string filter adds its parameter with its value unchanged; `from`/`to` become `created_after`/`created_before` |
| `Reviews.NumericFiltersKept` | src/resources/review.ts:29-30 | a non-zero `limit` or `offset` adds its parameter as decimal text |
| `Reviews.GetPath` | src/resources/review.ts:40-43 | `get` targets `/review/` followed by the id |
| `Reviews.GetPathInjective` | src/resources/review.ts:41 | distinct ids target distinct paths |

## Left out

- The HTTP library itself: its own default headers (such as `Accept`), creating the instance, applying `baseURL` and the per-request timeout, registering the interceptors, and the real `request`/`get`/`post` calls (src/rest-client.ts:56-62, 77, 87). They are foreign calls; the outcomes of a request's attempts are a parameter instead.
- Header-name case-insensitivity of the library's header object: headers are a plain map.
- Tasks.WaitForReview: the clock readings are elapsed times since the start and never negative (`seq<nat>`), so a wall clock that steps back is not modelled.
- Timers and the wall clock: `sleep`/`setTimeout` become the recorded `delays`/`sleeps`; `Date.now()` becomes the `clock` readings. Async interleaving of concurrent calls is not modelled.
- Transport.Send: requires the attempt sequence to cover the most attempts the counter allows. This describes the environment only: the code never asks for more.
- Tasks.WaitForReview: requires one status per guard reading and a last reading at or past the timeout. This stands for a clock that keeps advancing.
- Failures of the status poll or of the final `get` inside `waitForReview`: they propagate unchanged in the code; the model's status oracle yields only states.
- JavaScript number semantics: `retries`, `retryDelay`, `timeout`, `limit` and `offset` are integers (no NaN, Infinity or fractions). Intervals are exact reals, so `interval * 1.5` is not rounded.
- Number formatting: `toString` and template literals are modelled for integers only (`Js.DecimalString`).
- `URLSearchParams` percent-encoding: the query string joins `key=value` pairs with `&` without encoding.
- `Date.toISOString()`: date filters are taken as already-formatted strings.
- Untyped response bodies: a body is represented only by the fields the mapping reads (`message`, `code`, `entityId`, `errors`, `retryAfter`), each a string, number or map when present. A non-object body is represented as no body.
- An option passed explicitly as `undefined` to `waitForReview` overrides its default in the code. The model treats such an option as omitted.
- Error-object plumbing: the prototype chain, `instanceof` and stack-trace capture. The class becomes a kind tag and a name.
- Tasks.IntervalNonDecreasing: also requires `pollInterval >= 0`, because with a negative interval the sequence decreases (`Tasks.NegativeIntervalShrinks`).
- The queue resource (thin GET wrappers), the package's re-export index and the passive type declarations. The types only shape the datatypes.
- The MCP client named in a doc comment of the REST client is not part of this model (it is not in the repository).
