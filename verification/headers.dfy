/** `customFetch` (`utils/setAuthToken`): the request options it hands to `fetch`, with
    the header map built from a default, the caller's headers and the stored token. */
module Headers {
  import opened Common
  import opened Auth

  type HeaderMap = map<string, string>

  const ContentType := "Content-Type"
  const Json := "application/json"
  const TokenHeader := "x-auth-token"

  /** A request's options: `headers` if given, and every other option by name. */
  datatype FetchOptions = FetchOptions(headers: Option<HeaderMap>, others: map<string, string>)

  /** `if (token)`: present and not empty. */
  predicate Truthy(token: Option<string>) {
    token.Some? && token.value != ""
  }

  /** `{ 'Content-Type': 'application/json', ...options.headers }`, then the token header
      when the stored token is truthy. */
  function MergeHeaders(callerHeaders: Option<HeaderMap>, token: Option<string>): (r: HeaderMap)
    ensures ContentType in r
    ensures (callerHeaders.None? || ContentType !in callerHeaders.value) ==> r[ContentType] == Json
    ensures Truthy(token) ==> TokenHeader in r && r[TokenHeader] == token.value
    ensures callerHeaders.Some? ==> forall k :: k in callerHeaders.value && (k != TokenHeader || !Truthy(token)) ==>
      k in r && r[k] == callerHeaders.value[k]
    ensures forall k :: k in r ==>
      k == ContentType || (callerHeaders.Some? && k in callerHeaders.value) || (k == TokenHeader && Truthy(token))
  {
    var headers := map[ContentType := Json] + callerHeaders.GetOr(map[]);
    if Truthy(token) then headers[TokenHeader := token.value] else headers
  }

  /** `{ ...options, headers }`: only `headers` is replaced. */
  function RequestOptions(options: FetchOptions, stored: Option<string>): (r: FetchOptions)
    ensures r.others == options.others
    ensures r.headers.Some? && r.headers.value == MergeHeaders(options.headers, stored)
  {
    options.(headers := Some(MergeHeaders(options.headers, stored)))
  }

  /** Without a token (or with an empty one) the caller's headers are sent as they are,
      plus the default content type when they have none. */
  lemma NoTokenNoHeader(callerHeaders: HeaderMap, token: Option<string>)
    requires !Truthy(token) && TokenHeader !in callerHeaders
    ensures TokenHeader !in MergeHeaders(Some(callerHeaders), token)
  {
  }

  /** While the session is authenticated with a non-empty token, every request carries
      exactly that token, whatever the caller put in `x-auth-token`. */
  lemma AuthenticatedRequestsCarryToken(s: SessionState, options: FetchOptions)
    requires Consistent(s) && s.isAuthenticated && s.token.value != ""
    ensures var r := RequestOptions(options, s.storage);
      r.headers.Some? && TokenHeader in r.headers.value && r.headers.value[TokenHeader] == s.token.value
  {
  }

  /** A caller's `Content-Type` wins over the default. */
  lemma CallerContentTypeWins(callerHeaders: HeaderMap, token: Option<string>)
    requires ContentType in callerHeaders
    ensures MergeHeaders(Some(callerHeaders), token)[ContentType] == callerHeaders[ContentType]
  {
  }
}
