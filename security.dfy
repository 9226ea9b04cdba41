/** `verify_api_key`: the `X-API-Key` header must equal the configured key. */
module Security {
  import opened Wrappers

  /** The refusal; its detail is the source's own text, whose accented letter is mis-encoded as `√°`. */
  const BAD_API_KEY := HttpError(401, "API Key inv\U{221A}\U{B0}lida o faltante")

  /**
   * `verify_api_key`: refused with 401 when no key is configured (unset or
   * empty) or the header differs from it, a missing header included.
   */
  function VerifyApiKey(configured: Option<string>, header: Option<string>): (r: Outcome<HttpError>)
    ensures r == Pass <==> Present(configured) && header == configured
    ensures r.Fail? ==> r == Fail(BAD_API_KEY)
  {
    if !Present(configured) || header != configured then Fail(BAD_API_KEY) else Pass
  }

  /** Without a configured key every request is refused, whatever header it sends. */
  lemma UnconfiguredRefusesAll(configured: Option<string>, header: Option<string>)
    requires !Present(configured)
    ensures VerifyApiKey(configured, header) == Fail(BAD_API_KEY)
  {
  }
}
