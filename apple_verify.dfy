/** Apple ID-token verification and the JWKS key cache
    (pkg/oauth2/apple/verify.go). Time is whole Unix seconds; the JWKS HTTP
    round trip is an input; the signature check of the JWT library is a
    predicate passed in. */
module AppleVerify {
  import opened Wrappers
  import opened Http
  import Base64

  /** Keys fetched from Apple are trusted for one hour. */
  const CacheTtl: int := 3600
  const ClockSkewTolerance: int := 60
  const AppleIssuer: string := "https://appleid.apple.com"
  /** Go's zero `time.Time` (January 1st of year 1) in Unix seconds: the cache
      starts out expired. */
  const ZeroTime: int := -62135596800

  // ---- keys ----

  datatype Curve = P256 | P384 | P521

  /** An elliptic-curve public key: its curve and its affine coordinates. */
  datatype PublicKey = PublicKey(curve: Curve, x: nat, y: nat)

  /** One entry of the JWKS document, fields as in section 4 of RFC 7517 and
      section 6.2.1 of RFC 7518 (missing fields read as ""). */
  datatype Jwk = Jwk(kty: string, kid: string, use: string, alg: string, x: string, y: string, crv: string)

  /** `big.Int.SetBytes`: the bytes as an unsigned big-endian integer. */
  function BigEndian(b: seq<Base64.byte>): nat
    decreases |b|
  {
    if |b| == 0 then 0 else BigEndian(b[..|b| - 1]) * 256 + b[|b| - 1]
  }

  function CurveOf(crv: string): (c: Option<Curve>)
    ensures c.Some? <==> crv in {"P-256", "P-384", "P-521"}
  {
    if crv == "P-256" then Some(P256)
    else if crv == "P-384" then Some(P384)
    else if crv == "P-521" then Some(P521)
    else None
  }

  /** The filter of the refresh loop: an EC signing key whose coordinates are
      valid unpadded base64url and whose curve is one of the three NIST curves. */
  predicate Accepted(k: Jwk) {
    && k.kty == "EC" && k.use == "sig"
    && Base64.Decode(k.x, false).Some? && Base64.Decode(k.y, false).Some?
    && CurveOf(k.crv).Some?
  }

  /** The key one JWKS entry yields, or `None` when the loop skips it. */
  function ParseJwk(k: Jwk): (r: Option<PublicKey>)
    ensures r.Some? <==> Accepted(k)
    ensures r.Some? ==> r.value.curve == CurveOf(k.crv).value
    ensures r.Some? ==> r.value.x == BigEndian(Base64.Decode(k.x, false).value)
    ensures r.Some? ==> r.value.y == BigEndian(Base64.Decode(k.y, false).value)
  {
    if k.kty != "EC" || k.use != "sig" then None
    else
      var x := Base64.Decode(k.x, false);
      var y := Base64.Decode(k.y, false);
      if x.None? || y.None? then None
      else
        var c := CurveOf(k.crv);
        if c.None? then None else Some(PublicKey(c.value, BigEndian(x.value), BigEndian(y.value)))
  }

  /** The map the refresh loop builds from the entries, in order. */
  function KeysFrom(jwks: seq<Jwk>): map<string, PublicKey>
    decreases |jwks|
  {
    if |jwks| == 0 then map[]
    else
      var prev := KeysFrom(jwks[..|jwks| - 1]);
      var k := jwks[|jwks| - 1];
      var p := ParseJwk(k);
      if p.Some? then prev[k.kid := p.value] else prev
  }

  /** Some entry of a non-empty sequence satisfies `p` exactly when one of the
      first ones or the last one does. */
  lemma ExistsSnoc(jwks: seq<Jwk>, p: Jwk -> bool)
    requires |jwks| > 0
    ensures var init := jwks[..|jwks| - 1];
      (exists i | 0 <= i < |jwks| :: p(jwks[i])) <==>
      (exists i | 0 <= i < |init| :: p(init[i])) || p(jwks[|jwks| - 1])
  {
    var init := jwks[..|jwks| - 1];
    if exists i | 0 <= i < |init| :: p(init[i]) {
      var i :| 0 <= i < |init| && p(init[i]);
      assert jwks[i] == init[i];
    }
    if exists i | 0 <= i < |jwks| :: p(jwks[i]) {
      var i :| 0 <= i < |jwks| && p(jwks[i]);
      if i < |init| {
        assert init[i] == jwks[i];
      }
    }
  }

  /** `kid` is in the new map exactly when some accepted entry carries it. */
  lemma {:induction false} KeysFromDomain(jwks: seq<Jwk>, kid: string)
    ensures kid in KeysFrom(jwks) <==> exists i | 0 <= i < |jwks| :: jwks[i].kid == kid && Accepted(jwks[i])
    decreases |jwks|
  {
    if |jwks| > 0 {
      KeysFromDomain(jwks[..|jwks| - 1], kid);
      ExistsSnoc(jwks, (k: Jwk) => k.kid == kid && Accepted(k));
    }
  }

  /** Entry `i` is the last accepted entry carrying `kid`. */
  predicate LastAcceptedFor(jwks: seq<Jwk>, kid: string, i: int) {
    && 0 <= i < |jwks| && jwks[i].kid == kid && Accepted(jwks[i])
    && forall j | i < j < |jwks| :: !(jwks[j].kid == kid && Accepted(jwks[j]))
  }

  /** A later entry with the same `kid` overwrites an earlier one. */
  lemma {:induction false} KeysFromLastWins(jwks: seq<Jwk>, kid: string, i: int)
    requires LastAcceptedFor(jwks, kid, i)
    ensures kid in KeysFrom(jwks) && KeysFrom(jwks)[kid] == ParseJwk(jwks[i]).value
    decreases |jwks|
  {
    var n := |jwks|;
    if i < n - 1 {
      var init := jwks[..n - 1];
      assert LastAcceptedFor(init, kid, i) by {
        forall j | i < j < |init| ensures !(init[j].kid == kid && Accepted(init[j])) {
          assert init[j] == jwks[j];
        }
      }
      KeysFromLastWins(init, kid, i);
    }
  }

  // ---- the cache as a state machine ----

  datatype CacheState = CacheState(keys: map<string, PublicKey>, expiresAt: int)

  datatype KeyError =
    | RequestNotBuilt     // "creating JWKS request"
    | FetchFailed         // "failed to fetch JWKS"
    | BadStatus(status: int) // "JWKS endpoint returned status %d"
    | DecodeFailed        // "failed to decode JWKS"
    | KeyNotFound(kid: string) // "key %s not found in JWKS"

  /** The outcome of one `getApplePublicKey` call: the new cache state, the
      result, and whether a JWKS request went out. */
  datatype Lookup = Lookup(state: CacheState, result: Result<PublicKey, KeyError>, fetched: bool)

  function Find(keys: map<string, PublicKey>, kid: string): (r: Result<PublicKey, KeyError>)
    ensures r.Ok? <==> kid in keys
    ensures r.Ok? ==> r.value == keys[kid]
    ensures r.Err? ==> r.error == KeyNotFound(kid)
  {
    if kid in keys then Ok(keys[kid]) else Err(KeyNotFound(kid))
  }

  /** `getApplePublicKey` at time `now`, given how the JWKS fetch would go. */
  function Resolve(s: CacheState, kid: string, now: int, fetch: HttpOutcome<seq<Jwk>>): (l: Lookup)
    // fresh cache: answered from the map, no fetch, nothing changes
    ensures now < s.expiresAt ==> l.state == s && l.result == Find(s.keys, kid) && !l.fetched
    // stale cache: a request goes out unless it cannot even be built
    ensures s.expiresAt <= now ==> (l.fetched <==> !fetch.RequestBuildFailed?)
    // failed refresh: an error, and the cache as it was
    ensures s.expiresAt <= now && !(fetch.Responded? && fetch.status == StatusOK && fetch.body.Some?) ==>
              l.state == s && l.result.Err? && !l.result.error.KeyNotFound?
    // successful refresh: the map is replaced wholesale and lives one hour
    ensures s.expiresAt <= now && fetch.Responded? && fetch.status == StatusOK && fetch.body.Some? ==>
              l.state == CacheState(KeysFrom(fetch.body.value), now + CacheTtl)
              && l.result == Find(l.state.keys, kid)
  {
    if now < s.expiresAt then Lookup(s, Find(s.keys, kid), false)
    else
      match fetch
      case RequestBuildFailed => Lookup(s, Err(RequestNotBuilt), false)
      case TransportFailed => Lookup(s, Err(FetchFailed), true)
      case Responded(status, body) =>
        if status != StatusOK then Lookup(s, Err(BadStatus(status)), true)
        else if body.None? then Lookup(s, Err(DecodeFailed), true)
        else
          var keys := KeysFrom(body.value);
          Lookup(CacheState(keys, now + CacheTtl), Find(keys, kid), true)
  }

  /** A fresh cache never looks at the network: any two fetch outcomes give the
      same lookup. */
  lemma FreshIgnoresFetch(s: CacheState, kid: string, now: int, f1: HttpOutcome<seq<Jwk>>, f2: HttpOutcome<seq<Jwk>>)
    requires now < s.expiresAt
    ensures Resolve(s, kid, now, f1) == Resolve(s, kid, now, f2)
  {
  }

  /** After a successful refresh, whether or not it found `kid`, any lookup in
      the following hour is served from the new map without a fetch. */
  lemma SecondLookupHitsCache(s: CacheState, kid: string, now: int, jwks: seq<Jwk>,
                              kid2: string, later: int, fetch2: HttpOutcome<seq<Jwk>>)
    requires s.expiresAt <= now <= later < now + CacheTtl
    ensures var first := Resolve(s, kid, now, Responded(StatusOK, Some(jwks)));
            var second := Resolve(first.state, kid2, later, fetch2);
            first.fetched && !second.fetched && second.state == first.state
            && second.result == Find(KeysFrom(jwks), kid2)
  {
  }

  // ---- claims ----

  /** A decoded JSON value. JSON numbers arrive as float64 and are truncated;
      here they are already integers. */
  datatype Json = JNum(n: int) | JStr(s: string) | JBool(b: bool) | JNull | JArray(items: seq<Json>)
                | JObject(fields: seq<(string, Json)>)

  type Claims = map<string, Json>

  /** The algorithm family the JWT library picked from the token's `alg`. */
  datatype SigningFamily = Ecdsa | Rsa | RsaPss | Hmac | EdDsa | Unsecured

  /** A token as parsed (without verification) from its compact form. */
  datatype Jwt = Jwt(header: map<string, Json>, family: SigningFamily, claims: Claims)

  datatype SignatureFailure = UnexpectedSigningMethod | SignatureRejected

  datatype VerifyError =
    | MalformedToken                     // "failed to parse token"
    | MissingKid                         // "missing kid in token header"
    | KeyUnavailable(cause: KeyError)    // "failed to get public key"
    | VerificationFailed(why: SignatureFailure) // "token verification failed"
    | MissingExp | TokenExpired
    | IssuedInFuture
    | MissingAud | InvalidAudience
    | MissingIss | InvalidIssuer

  predicate ExpPresent(c: Claims) { "exp" in c && c["exp"].JNum? }
  predicate NotExpired(c: Claims, now: int) { ExpPresent(c) && now <= c["exp"].n + ClockSkewTolerance }
  predicate IatAcceptable(c: Claims, now: int) {
    !("iat" in c && c["iat"].JNum?) || c["iat"].n <= now + ClockSkewTolerance
  }
  predicate AudPresent(c: Claims) { "aud" in c && c["aud"].JStr? }
  predicate IssPresent(c: Claims) { "iss" in c && c["iss"].JStr? }

  /** The claim checks, in order: exp (required, 60 s of leeway), iat (optional,
      at most 60 s in the future), aud (a string equal to the audience), iss
      (a string equal to Apple's issuer). The first failure is reported; on
      success the claims come back unchanged. */
  function CheckClaims(c: Claims, audience: string, now: int): (r: Result<Claims, VerifyError>)
    ensures r.Ok? <==> NotExpired(c, now) && IatAcceptable(c, now)
                       && "aud" in c && c["aud"] == JStr(audience)
                       && "iss" in c && c["iss"] == JStr(AppleIssuer)
    ensures r.Ok? ==> r.value == c
    ensures r == Err(MissingExp) <==> !ExpPresent(c)
    ensures r == Err(TokenExpired) <==> ExpPresent(c) && c["exp"].n + ClockSkewTolerance < now
    ensures r == Err(IssuedInFuture) <==> NotExpired(c, now) && !IatAcceptable(c, now)
    ensures r == Err(MissingAud) <==> NotExpired(c, now) && IatAcceptable(c, now) && !AudPresent(c)
    ensures r == Err(InvalidAudience) <==>
              NotExpired(c, now) && IatAcceptable(c, now) && AudPresent(c) && c["aud"].s != audience
    ensures r == Err(MissingIss) <==>
              NotExpired(c, now) && IatAcceptable(c, now) && "aud" in c && c["aud"] == JStr(audience) && !IssPresent(c)
    ensures r.Err? ==> r.error in {MissingExp, TokenExpired, IssuedInFuture, MissingAud, InvalidAudience, MissingIss, InvalidIssuer}
  {
    if !ExpPresent(c) then Err(MissingExp)
    else if c["exp"].n + ClockSkewTolerance < now then Err(TokenExpired)
    else if "iat" in c && c["iat"].JNum? && c["iat"].n > now + ClockSkewTolerance then Err(IssuedInFuture)
    else if !AudPresent(c) then Err(MissingAud)
    else if c["aud"].s != audience then Err(InvalidAudience)
    else if !IssPresent(c) then Err(MissingIss)
    else if c["iss"].s != AppleIssuer then Err(InvalidIssuer)
    else Ok(c)
  }

  /** `kid` must be a string in the header of a token that parses. */
  function KidOf(parsed: Option<Jwt>): (r: Result<string, VerifyError>)
    ensures r.Ok? <==> parsed.Some? && "kid" in parsed.value.header && parsed.value.header["kid"].JStr?
    ensures r.Ok? ==> r.value == parsed.value.header["kid"].s
    ensures parsed.None? ==> r == Err(MalformedToken)
  {
    match parsed
    case None => Err(MalformedToken)
    case Some(t) =>
      if "kid" in t.header && t.header["kid"].JStr? then Ok(t.header["kid"].s) else Err(MissingKid)
  }

  /** The steps after key resolution: the ECDSA-only rule and the signature come
      first, and no claim is looked at unless both pass. */
  function VerifyWithKey(t: Jwt, key: PublicKey, sigValid: (Jwt, PublicKey) -> bool,
                         audience: string, now: int): (r: Result<Claims, VerifyError>)
    ensures t.family != Ecdsa ==> r == Err(VerificationFailed(UnexpectedSigningMethod))
    ensures t.family == Ecdsa && !sigValid(t, key) ==> r == Err(VerificationFailed(SignatureRejected))
    ensures t.family == Ecdsa && sigValid(t, key) ==> r == CheckClaims(t.claims, audience, now)
  {
    if t.family != Ecdsa then Err(VerificationFailed(UnexpectedSigningMethod))
    else if !sigValid(t, key) then Err(VerificationFailed(SignatureRejected))
    else CheckClaims(t.claims, audience, now)
  }

  datatype Verification = Verification(state: CacheState, result: Result<Claims, VerifyError>, fetched: bool)

  /** `VerifyIDToken` as a whole, over the cache state it starts from. */
  function Verify(s: CacheState, parsed: Option<Jwt>, audience: string, now: int,
                  fetch: HttpOutcome<seq<Jwk>>, sigValid: (Jwt, PublicKey) -> bool): (v: Verification)
    ensures KidOf(parsed).Err? ==> v.state == s && !v.fetched && v.result == Err(KidOf(parsed).error)
    ensures KidOf(parsed).Ok? ==>
              var l := Resolve(s, KidOf(parsed).value, now, fetch);
              v.state == l.state && v.fetched == l.fetched
              && (l.result.Err? ==> v.result == Err(KeyUnavailable(l.result.error)))
              && (l.result.Ok? ==> v.result == VerifyWithKey(parsed.value, l.result.value, sigValid, audience, now))
    ensures v.result.Ok? ==>
              && parsed.Some? && parsed.value.family == Ecdsa
              && v.result.value == parsed.value.claims
              && CheckClaims(parsed.value.claims, audience, now).Ok?
  {
    var kid := KidOf(parsed);
    if kid.Err? then Verification(s, Err(kid.error), false)
    else
      var l := Resolve(s, kid.value, now, fetch);
      if l.result.Err? then Verification(l.state, Err(KeyUnavailable(l.result.error)), l.fetched)
      else Verification(l.state, VerifyWithKey(parsed.value, l.result.value, sigValid, audience, now), l.fetched)
  }

  /** The hand-written claim checks accept `exp` 30 s in the past and reject `exp`
      two hours in the past as expired. */
  lemma ExpirySkewExamples(c: Claims, audience: string, now: int)
    requires "aud" in c && c["aud"] == JStr(audience) && "iss" in c && c["iss"] == JStr(AppleIssuer)
    requires "iat" !in c
    ensures CheckClaims(c["exp" := JNum(now - 30)], audience, now).Ok?
    ensures CheckClaims(c["exp" := JNum(now - 7200)], audience, now) == Err(TokenExpired)
  {
    var c1 := c["exp" := JNum(now - 30)];
    assert c1["aud"] == c["aud"] && c1["iss"] == c["iss"];
  }

  // ---- the cache object ----

  /** The process-wide JWKS cache. The mutex around it is not modelled: each
      method runs as one atomic step. */
  class JwksCache {
    var keys: map<string, PublicKey>
    var expiresAt: int

    function State(): CacheState
      reads this
    {
      CacheState(keys, expiresAt)
    }

    /** `init`: an empty map, expired since the zero time. */
    constructor ()
      ensures keys == map[] && expiresAt == ZeroTime
    {
      keys := map[];
      expiresAt := ZeroTime;
    }

    /** The refresh loop: skips entries that fail the filter, lets later
        entries overwrite earlier ones with the same `kid`. */
    static method BuildKeys(jwks: seq<Jwk>) returns (newKeys: map<string, PublicKey>)
      ensures newKeys == KeysFrom(jwks)
    {
      newKeys := map[];
      for i := 0 to |jwks|
        invariant newKeys == KeysFrom(jwks[..i])
      {
        assert jwks[..i + 1][..i] == jwks[..i];
        var k := jwks[i];
        if k.kty != "EC" || k.use != "sig" {
          continue;
        }
        var x := Base64.Decode(k.x, false);
        if x.None? {
          continue;
        }
        var y := Base64.Decode(k.y, false);
        if y.None? {
          continue;
        }
        var curve: Curve;
        if k.crv == "P-256" {
          curve := P256;
        } else if k.crv == "P-384" {
          curve := P384;
        } else if k.crv == "P-521" {
          curve := P521;
        } else {
          continue;
        }
        newKeys := newKeys[k.kid := PublicKey(curve, BigEndian(x.value), BigEndian(y.value))];
      }
      assert jwks[..|jwks|] == jwks;
    }

    /** `getApplePublicKey` */
    method GetPublicKey(kid: string, now: int, fetch: HttpOutcome<seq<Jwk>>)
      returns (r: Result<PublicKey, KeyError>, fetched: bool)
      modifies this
      ensures Lookup(State(), r, fetched) == Resolve(old(State()), kid, now, fetch)
    {
      fetched := false;
      if now < expiresAt {
        if kid in keys {
          return Ok(keys[kid]), fetched;
        }
        return Err(KeyNotFound(kid)), fetched;
      }
      if fetch.RequestBuildFailed? {
        return Err(RequestNotBuilt), fetched;
      }
      fetched := true;
      if fetch.TransportFailed? {
        return Err(FetchFailed), fetched;
      }
      if fetch.status != StatusOK {
        return Err(BadStatus(fetch.status)), fetched;
      }
      if fetch.body.None? {
        return Err(DecodeFailed), fetched;
      }
      var newKeys := BuildKeys(fetch.body.value);
      keys := newKeys;
      expiresAt := now + CacheTtl;
      if kid in newKeys {
        return Ok(newKeys[kid]), fetched;
      }
      return Err(KeyNotFound(kid)), fetched;
    }

    /** `VerifyIDToken`: kid, key resolution through this cache, algorithm and
        signature, then the claims. */
    method VerifyIDToken(parsed: Option<Jwt>, audience: string, now: int,
                         fetch: HttpOutcome<seq<Jwk>>, sigValid: (Jwt, PublicKey) -> bool)
      returns (r: Result<Claims, VerifyError>, fetched: bool)
      modifies this
      ensures Verification(State(), r, fetched) == Verify(old(State()), parsed, audience, now, fetch, sigValid)
    {
      fetched := false;
      if parsed.None? {
        return Err(MalformedToken), fetched;
      }
      var token := parsed.value;
      if !("kid" in token.header && token.header["kid"].JStr?) {
        return Err(MissingKid), fetched;
      }
      var kid := token.header["kid"].s;
      var key;
      key, fetched := GetPublicKey(kid, now, fetch);
      if key.Err? {
        return Err(KeyUnavailable(key.error)), fetched;
      }
      if token.family != Ecdsa {
        return Err(VerificationFailed(UnexpectedSigningMethod)), fetched;
      }
      if !sigValid(token, key.value) {
        return Err(VerificationFailed(SignatureRejected)), fetched;
      }
      r := CheckClaims(token.claims, audience, now);
    }
  }
}
