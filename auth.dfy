/** API-key validation and the bearer header attached to every outbound request. */
module Auth {
  import opened Wrappers
  import opened Http

  const KeyPrefix := "sk_"
  const MissingKeyMessage := "API key is required"
  const KeyFormatMessage := "Invalid API key format. Expected sk_"
  const AuthorizationHeader := "Authorization"

  /** `s.startsWith(p)`. */
  predicate StartsWith(s: string, p: string) {
    |p| <= |s| && s[..|p|] == p
  }

  /**
   * `validateApiKey`: passes exactly the keys starting with `sk_`; the emptiness check
   * comes first, so the empty key is always reported as missing.
   */
  function ValidateApiKey(apiKey: string): (r: Outcome<string>)
    ensures r.Pass? <==> StartsWith(apiKey, KeyPrefix)
    ensures apiKey == "" ==> r == Fail(MissingKeyMessage)
    ensures apiKey != "" && !StartsWith(apiKey, KeyPrefix) ==> r == Fail(KeyFormatMessage)
  {
    if apiKey == "" then Fail(MissingKeyMessage)
    else if !StartsWith(apiKey, KeyPrefix) then Fail(KeyFormatMessage)
    else Pass
  }

  /** The header value the request interceptor writes. */
  function BearerValue(apiKey: string): string {
    "Bearer " + apiKey
  }

  /**
   * The headers after the request interceptor: `Authorization` is the bearer value,
   * replacing any earlier one, and no other header is added, removed or changed.
   */
  function WithAuthorization(headers: Headers, apiKey: string): (h: Headers)
    ensures AuthorizationHeader in h && h[AuthorizationHeader] == BearerValue(apiKey)
    ensures h.Keys == headers.Keys + {AuthorizationHeader}
    ensures forall k :: k in headers && k != AuthorizationHeader ==> h[k] == headers[k]
  {
    headers[AuthorizationHeader := BearerValue(apiKey)]
  }

  /** Re-running the interceptor on an already authorised request changes nothing. */
  lemma WithAuthorizationIdempotent(headers: Headers, apiKey: string)
    ensures WithAuthorization(WithAuthorization(headers, apiKey), apiKey) == WithAuthorization(headers, apiKey)
  {
  }

  /** `configureApiKeyAuth`'s interceptor, run on one request's configuration. */
  method AttachAuthorization(config: RequestConfig, apiKey: string)
    modifies config
    ensures config.headers == WithAuthorization(old(config.headers), apiKey)
    ensures config.retryCount == old(config.retryCount)
  {
    config.headers := WithAuthorization(config.headers, apiKey);
  }
}
