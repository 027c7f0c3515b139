/**
 * The SDK's error taxonomy: a base error carrying (message, status, code, data) and six
 * specialisations, each of which fixes some of those fields. The class hierarchy becomes
 * one record with a `kind` tag; kind-specific fields (`errors`, `retryAfter`) live on the tag.
 */
module Errors {
  import opened Wrappers
  import opened Js
  import opened Http

  /** The `data` an error carries: nothing, a field-error map, or a response body. */
  datatype Payload = NoData | FieldErrorData(fields: FieldErrors) | BodyData(body: Body)

  datatype Kind =
    | Base
    | Authentication
    | NotFound
    | Validation(errors: Option<FieldErrors>)
    | Timeout
    | RateLimit(retryAfter: Option<int>)
    | Server

  datatype DatashiftError = DatashiftError(
    kind: Kind,
    name: string,
    message: string,
    status: Option<int>,
    code: Option<string>,
    data: Payload)

  /** The `name` each class assigns. */
  function ClassName(k: Kind): string {
    match k
    case Base => "DatashiftError"
    case Authentication => "AuthenticationError"
    case NotFound => "NotFoundError"
    case Validation(_) => "ValidationError"
    case Timeout => "TimeoutError"
    case RateLimit(_) => "RateLimitError"
    case Server => "ServerError"
  }

  /** The protocol status each specialised class reports. */
  function FixedStatus(k: Kind): int
    requires !k.Base?
  {
    match k
    case Authentication => 401
    case NotFound => 404
    case Validation(_) => 400
    case Timeout => 408
    case RateLimit(_) => 429
    case Server => 500
  }

  /** The machine-readable code each specialised class reports. */
  function FixedCode(k: Kind): string
    requires !k.Base?
  {
    match k
    case Authentication => "AUTHENTICATION_ERROR"
    case NotFound => "NOT_FOUND"
    case Validation(_) => "VALIDATION_ERROR"
    case Timeout => "TIMEOUT"
    case RateLimit(_) => "RATE_LIMITED"
    case Server => "SERVER_ERROR"
  }

  /** A validation error's `data` is its `errors` map (absent when no map was given). */
  function ErrorsPayload(errors: Option<FieldErrors>): Payload {
    if errors.Some? then FieldErrorData(errors.value) else NoData
  }

  /**
   * The taxonomy's invariant: the name matches the kind, and every specialised kind
   * reports its fixed status and code, with `data` determined by the kind.
   */
  predicate Conforms(e: DatashiftError) {
    && e.name == ClassName(e.kind)
    && (!e.kind.Base? ==> e.status == Some(FixedStatus(e.kind)) && e.code == Some(FixedCode(e.kind)))
    && (e.kind.Validation? ==> e.data == ErrorsPayload(e.kind.errors))
    && (!e.kind.Base? && !e.kind.Validation? ==> e.data == NoData)
  }

  const AuthenticationDefaultMessage := "Authentication failed"
  const TimeoutDefaultMessage := "Operation timed out"
  const RateLimitMessage := "Rate limit exceeded"
  const ServerDefaultMessage := "Internal server error"

  /** `new DatashiftError(message, status, code, data)`: keeps exactly what it is given. */
  function NewDatashiftError(message: string, status: Option<int>, code: Option<string>, data: Payload): (e: DatashiftError)
    ensures e.kind == Base && Conforms(e)
    ensures e.message == message && e.status == status && e.code == code && e.data == data
  {
    DatashiftError(Base, "DatashiftError", message, status, code, data)
  }

  /** `new AuthenticationError(message?)`; an absent message defaults. */
  function NewAuthenticationError(message: Option<string>): (e: DatashiftError)
    ensures e.kind == Authentication && Conforms(e)
    ensures e.status == Some(401) && e.code == Some("AUTHENTICATION_ERROR")
    ensures e.message == (if message.Some? then message.value else AuthenticationDefaultMessage)
  {
    DatashiftError(Authentication, "AuthenticationError", message.GetOr(AuthenticationDefaultMessage),
                   Some(401), Some("AUTHENTICATION_ERROR"), NoData)
  }

  /** The message of a not-found error: names the id only when it is truthy. */
  function NotFoundMessage(resource: string, id: Option<string>): (m: string)
    ensures |m| >= |resource| + 10
    ensures m[..|resource|] == resource && m[|m| - 10..] == " not found"
    ensures TruthyString(id) ==> m[|resource|..|m| - 10] == " '" + id.value + "'"
    ensures !TruthyString(id) ==> |m| == |resource| + 10
  {
    if TruthyString(id) then resource + " '" + id.value + "' not found" else resource + " not found"
  }

  /** `new NotFoundError(resource, id?)`. */
  function NewNotFoundError(resource: string, id: Option<string>): (e: DatashiftError)
    ensures e.kind == NotFound && Conforms(e)
    ensures e.status == Some(404) && e.code == Some("NOT_FOUND")
    ensures e.message == NotFoundMessage(resource, id)
  {
    DatashiftError(NotFound, "NotFoundError", NotFoundMessage(resource, id), Some(404), Some("NOT_FOUND"), NoData)
  }

  /**
   * Reads the id back out of a not-found message for `resource`: the inverse of
   * `NotFoundMessage` on truthy ids.
   */
  function NotFoundId(resource: string, message: string): Option<string> {
    var prefix := resource + " '";
    var suffix := "' not found";
    if |message| > |prefix| + |suffix|
       && message[..|prefix|] == prefix
       && message[|message| - |suffix|..] == suffix
    then Some(message[|prefix|..|message| - |suffix|])
    else None
  }

  /** A not-found message names its id exactly when the id is truthy, and recovers it. */
  lemma NotFoundMessageRoundTrip(resource: string, id: Option<string>)
    ensures NotFoundId(resource, NotFoundMessage(resource, id)) == (if TruthyString(id) then id else None)
  {
    var m := NotFoundMessage(resource, id);
    var prefix := resource + " '";
    var suffix := "' not found";
    if TruthyString(id) {
      assert m == prefix + id.value + suffix;
      assert m[..|prefix|] == prefix;
      assert m[|m| - |suffix|..] == suffix;
      assert m[|prefix|..|m| - |suffix|] == id.value;
    } else {
      assert |m| == |resource| + 10;
    }
  }

  /** Two truthy ids give the same not-found message only if they are equal. */
  lemma NotFoundMessageInjective(resource: string, a: string, b: string)
    requires a != "" && b != ""
    requires NotFoundMessage(resource, Some(a)) == NotFoundMessage(resource, Some(b))
    ensures a == b
  {
    NotFoundMessageRoundTrip(resource, Some(a));
    NotFoundMessageRoundTrip(resource, Some(b));
  }

  /** `new ValidationError(message, errors?)`: the errors map is also the error's data. */
  function NewValidationError(message: string, errors: Option<FieldErrors>): (e: DatashiftError)
    ensures e.kind == Validation(errors) && Conforms(e)
    ensures e.status == Some(400) && e.code == Some("VALIDATION_ERROR") && e.message == message
    ensures errors.Some? ==> e.data == FieldErrorData(errors.value)
    ensures errors.None? ==> e.data == NoData
  {
    DatashiftError(Validation(errors), "ValidationError", message, Some(400), Some("VALIDATION_ERROR"), ErrorsPayload(errors))
  }

  /** `new TimeoutError(message?)`; an absent message defaults. */
  function NewTimeoutError(message: Option<string>): (e: DatashiftError)
    ensures e.kind == Timeout && Conforms(e)
    ensures e.status == Some(408) && e.code == Some("TIMEOUT")
    ensures e.message == (if message.Some? then message.value else TimeoutDefaultMessage)
  {
    DatashiftError(Timeout, "TimeoutError", message.GetOr(TimeoutDefaultMessage), Some(408), Some("TIMEOUT"), NoData)
  }

  /** `new RateLimitError(retryAfter?)`: fixed message, the hint kept unchanged. */
  function NewRateLimitError(retryAfter: Option<int>): (e: DatashiftError)
    ensures e.kind == RateLimit(retryAfter) && Conforms(e)
    ensures e.status == Some(429) && e.code == Some("RATE_LIMITED") && e.message == RateLimitMessage
  {
    DatashiftError(RateLimit(retryAfter), "RateLimitError", RateLimitMessage, Some(429), Some("RATE_LIMITED"), NoData)
  }

  /** `new ServerError(message?)`: always status 500, whatever 5xx status led to it. */
  function NewServerError(message: Option<string>): (e: DatashiftError)
    ensures e.kind == Server && Conforms(e)
    ensures e.status == Some(500) && e.code == Some("SERVER_ERROR")
    ensures e.message == (if message.Some? then message.value else ServerDefaultMessage)
  {
    DatashiftError(Server, "ServerError", message.GetOr(ServerDefaultMessage), Some(500), Some("SERVER_ERROR"), NoData)
  }

  /** Specialised kinds are told apart by their code alone. */
  lemma CodeDeterminesKind(e1: DatashiftError, e2: DatashiftError)
    requires Conforms(e1) && Conforms(e2) && !e1.kind.Base? && !e2.kind.Base?
    requires e1.code == e2.code
    ensures ClassName(e1.kind) == ClassName(e2.kind)
  {
  }
}
