/** What the Apple and Google clients share: the authorization-code token
    request of section 4.1.3 of RFC 6749 with the PKCE `code_verifier` of
    section 4.5 of RFC 7636, and the rule that every failure of the exchange
    collapses into one opaque error. The HTTP round trip is an input. */
module TokenExchange {
  import opened Wrappers
  import opened Http

  /** The JSON reply of a token endpoint. */
  datatype TokenResponse = TokenResponse(accessToken: string, idToken: string, tokenType: string)

  /** `url.Values`: each form field with its list of values. */
  type Form = map<string, seq<string>>

  datatype FormPost = FormPost(verb: string, url: string, contentType: string, form: Form)

  const FormContentType: string := "application/x-www-form-urlencoded"
  const TokenExchangeFailed: string := "token exchange failed"

  /** The six form fields of the token request, each with a single value. */
  function AuthorizationCodeForm(code: string, clientID: string, clientSecret: string,
                                 redirectURI: string, codeVerifier: string): (f: Form)
    ensures f.Keys == {"code", "client_id", "client_secret", "redirect_uri", "grant_type", "code_verifier"}
    ensures forall k | k in f :: |f[k]| == 1
    ensures f["grant_type"] == ["authorization_code"]
    ensures f["code"] == [code] && f["client_id"] == [clientID] && f["client_secret"] == [clientSecret]
    ensures f["redirect_uri"] == [redirectURI] && f["code_verifier"] == [codeVerifier]
  {
    map["code" := [code], "client_id" := [clientID], "client_secret" := [clientSecret],
        "redirect_uri" := [redirectURI], "grant_type" := ["authorization_code"],
        "code_verifier" := [codeVerifier]]
  }

  /** Only a 200 with a decodable body succeeds, and then with that body; every
      other ending gives the same message, whatever went wrong. */
  function CollapseOutcome(outcome: HttpOutcome<TokenResponse>): (r: Result<TokenResponse, string>)
    ensures r.Ok? <==> outcome.Responded? && outcome.status == StatusOK && outcome.body.Some?
    ensures r.Ok? ==> r.value == outcome.body.value
    ensures r.Err? ==> r.error == TokenExchangeFailed
  {
    match outcome
    case Responded(status, body) =>
      if status != StatusOK then Err(TokenExchangeFailed)
      else if body.None? then Err(TokenExchangeFailed)
      else Ok(body.value)
    case _ => Err(TokenExchangeFailed)
  }

  /** The request a provider's `ExchangeCode` sends, and its result. */
  datatype Exchange = Exchange(request: FormPost, result: Result<TokenResponse, string>)

  function ExchangeCode(endpoint: string, code: string, clientID: string, clientSecret: string,
                        redirectURI: string, codeVerifier: string,
                        outcome: HttpOutcome<TokenResponse>): (x: Exchange)
    ensures x.request.verb == "POST" && x.request.url == endpoint
    ensures x.request.contentType == FormContentType
    ensures x.request.form == AuthorizationCodeForm(code, clientID, clientSecret, redirectURI, codeVerifier)
    ensures x.result.Ok? <==> outcome.Responded? && outcome.status == StatusOK && outcome.body.Some?
    ensures x.result.Err? ==> x.result.error == TokenExchangeFailed
  {
    var form := AuthorizationCodeForm(code, clientID, clientSecret, redirectURI, codeVerifier);
    Exchange(FormPost("POST", endpoint, FormContentType, form), CollapseOutcome(outcome))
  }

  /** Two failed exchanges are indistinguishable to the caller, however they
      failed. */
  lemma FailuresIndistinguishable(a: HttpOutcome<TokenResponse>, b: HttpOutcome<TokenResponse>)
    requires CollapseOutcome(a).Err? && CollapseOutcome(b).Err?
    ensures CollapseOutcome(a) == CollapseOutcome(b)
  {
  }
}
