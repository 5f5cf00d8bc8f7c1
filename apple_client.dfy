/** Apple's token endpoint client and client-secret assertion
    (pkg/oauth2/apple/apple.go). PEM/PKCS8 parsing and ES256 signing are
    inputs: the parse outcome is a value, the signer a function. */
module AppleClient {
  import opened Wrappers
  import opened Http
  import opened TokenExchange

  const AppleTokenEndpoint: string := "https://appleid.apple.com/auth/token"
  const AppleAudience: string := "https://appleid.apple.com"
  /** The client secret is valid for five minutes. */
  const ClientSecretLifetime: int := 300

  /** `ExchangeCode` against Apple's token endpoint. */
  function ExchangeCode(code: string, clientID: string, clientSecret: string, redirectURI: string,
                        codeVerifier: string, outcome: HttpOutcome<TokenResponse>): (x: Exchange)
    ensures x.request.url == AppleTokenEndpoint && x.request.verb == "POST"
    ensures x.request.contentType == "application/x-www-form-urlencoded"
    ensures x.request.form == TokenExchange.AuthorizationCodeForm(code, clientID, clientSecret, redirectURI, codeVerifier)
    ensures x.request.form.Keys == {"code", "client_id", "client_secret", "redirect_uri", "grant_type", "code_verifier"}
    ensures x.request.form["grant_type"] == ["authorization_code"] && x.request.form["code_verifier"] == [codeVerifier]
    ensures x.request.form["client_secret"] == [clientSecret] && x.request.form["code"] == [code]
    ensures x.result.Ok? <==> outcome.Responded? && outcome.status == 200 && outcome.body.Some?
    ensures x.result.Ok? ==> x.result.value == outcome.body.value
    ensures x.result.Err? ==> x.result.error == "token exchange failed"
  {
    TokenExchange.ExchangeCode(AppleTokenEndpoint, code, clientID, clientSecret, redirectURI, codeVerifier, outcome)
  }

  /** A parsed private key: ECDSA, or some other algorithm PKCS8 allows. */
  datatype PrivateKey = EcdsaKey(material: seq<int>) | OtherKey(algorithm: string)

  /** What `pem.Decode` followed by `x509.ParsePKCS8PrivateKey` produced. */
  datatype KeyParse = NoPemBlock | Pkcs8Failed(reason: string) | Parsed(key: PrivateKey)

  datatype JwtHeader = JwtHeader(alg: string, typ: string, kid: string)
  datatype ClientSecretClaims = ClientSecretClaims(iss: string, sub: string, aud: string, iat: int, exp: int)
  /** The unsigned token handed to the ES256 signer. */
  datatype SigningInput = SigningInput(header: JwtHeader, claims: ClientSecretClaims, key: seq<int>)

  /** The claim set and header of the client secret issued at `now`. */
  function ClientSecretToken(teamID: string, clientID: string, keyID: string, now: int, key: seq<int>): (t: SigningInput)
    ensures t.claims.iss == teamID && t.claims.sub == clientID && t.claims.aud == AppleAudience
    ensures t.claims.iat == now && t.claims.exp - t.claims.iat == ClientSecretLifetime
    ensures t.header.alg == "ES256" && t.header.kid == keyID
    ensures t.key == key
  {
    SigningInput(JwtHeader("ES256", "JWT", keyID),
                 ClientSecretClaims(teamID, clientID, AppleAudience, now, now + ClientSecretLifetime), key)
  }

  /** `GenerateClientSecret`: each key problem is its own error and yields no
      token; with an ECDSA key the result is whatever the signer makes of the
      client-secret token. */
  function GenerateClientSecret(teamID: string, clientID: string, keyID: string, parse: KeyParse,
                                now: int, sign: SigningInput -> Result<string, string>): (r: Result<string, string>)
    ensures parse.NoPemBlock? ==> r == Err("failed to decode PEM block")
    ensures parse.Pkcs8Failed? ==> r == Err("parsing private key: " + parse.reason)
    ensures parse.Parsed? && parse.key.OtherKey? ==> r == Err("key is not ECDSA")
    ensures parse.Parsed? && parse.key.EcdsaKey? ==>
              r == sign(ClientSecretToken(teamID, clientID, keyID, now, parse.key.material))
  {
    match parse
    case NoPemBlock => Err("failed to decode PEM block")
    case Pkcs8Failed(reason) => Err("parsing private key: " + reason)
    case Parsed(key) =>
      match key
      case OtherKey(_) => Err("key is not ECDSA")
      case EcdsaKey(material) => sign(ClientSecretToken(teamID, clientID, keyID, now, material))
  }
}
