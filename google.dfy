/** Google's token endpoint and userinfo clients (pkg/oauth2/google/google.go).
    The HTTP round trips are inputs. */
module Google {
  import opened Wrappers
  import opened Http
  import opened TokenExchange

  const GoogleTokenEndpoint: string := "https://oauth2.googleapis.com/token"
  const UserInfoEndpoint: string := "https://www.googleapis.com/oauth2/v3/userinfo"
  const UserInfoRequestFailed: string := "userinfo request failed"
  const UserInfoDecodeFailed: string := "failed to decode userinfo response"

  /** `ExchangeCode` against Google's token endpoint. */
  function ExchangeCode(code: string, clientID: string, clientSecret: string, redirectURI: string,
                        codeVerifier: string, outcome: HttpOutcome<TokenResponse>): (x: Exchange)
    ensures x.request.url == GoogleTokenEndpoint && x.request.verb == "POST"
    ensures x.request.contentType == "application/x-www-form-urlencoded"
    ensures x.request.form == TokenExchange.AuthorizationCodeForm(code, clientID, clientSecret, redirectURI, codeVerifier)
    ensures x.request.form.Keys == {"code", "client_id", "client_secret", "redirect_uri", "grant_type", "code_verifier"}
    ensures x.request.form["grant_type"] == ["authorization_code"] && x.request.form["code_verifier"] == [codeVerifier]
    ensures x.request.form["client_id"] == [clientID] && x.request.form["redirect_uri"] == [redirectURI]
    ensures x.result.Ok? <==> outcome.Responded? && outcome.status == 200 && outcome.body.Some?
    ensures x.result.Ok? ==> x.result.value == outcome.body.value
    ensures x.result.Err? ==> x.result.error == "token exchange failed"
  {
    TokenExchange.ExchangeCode(GoogleTokenEndpoint, code, clientID, clientSecret, redirectURI, codeVerifier, outcome)
  }

  datatype UserInfo = UserInfo(sub: string, email: string, emailVerified: bool, name: string, picture: string)

  datatype GetRequest = GetRequest(verb: string, url: string, headers: map<string, string>)

  datatype UserInfoCall = UserInfoCall(request: GetRequest, result: Result<UserInfo, string>)

  /** `GetUserInfo`: a GET carrying the access token as a bearer credential
      (section 2.1 of RFC 6750). Failing to build or send the request, and any
      status but 200, read "userinfo request failed"; a 200 whose body does not
      decode reads "failed to decode userinfo response". */
  function GetUserInfo(accessToken: string, outcome: HttpOutcome<UserInfo>): (c: UserInfoCall)
    ensures c.request.verb == "GET" && c.request.url == UserInfoEndpoint
    ensures c.request.headers.Keys == {"Authorization"}
    ensures c.request.headers["Authorization"] == "Bearer " + accessToken
    ensures c.result.Ok? <==> outcome.Responded? && outcome.status == 200 && outcome.body.Some?
    ensures c.result.Ok? ==> c.result.value == outcome.body.value
    ensures c.result.Err? ==>
              (c.result.error == UserInfoDecodeFailed <==> outcome.Responded? && outcome.status == 200)
    ensures c.result.Err? ==> c.result.error in {UserInfoRequestFailed, UserInfoDecodeFailed}
  {
    var request := GetRequest("GET", UserInfoEndpoint, map["Authorization" := "Bearer " + accessToken]);
    var result :=
      match outcome
      case Responded(status, body) =>
        if status != 200 then Err(UserInfoRequestFailed)
        else if body.None? then Err(UserInfoDecodeFailed)
        else Ok(body.value)
      case _ => Err(UserInfoRequestFailed);
    UserInfoCall(request, result)
  }
}
