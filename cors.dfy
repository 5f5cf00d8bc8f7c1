/** The CORS middleware (package `middleware`): which response headers a request
    receives, and when the request is answered as a preflight. */
module Cors {
  import opened Text

  datatype CorsConfig = CorsConfig(
    allowedOrigins: seq<string>,
    allowedMethods: seq<string>,
    allowedHeaders: seq<string>,
    exposedHeaders: seq<string>,
    allowCredentials: bool,
    maxAge: int)

  function DefaultCorsConfig(): CorsConfig {
    CorsConfig(["*"], ["GET", "POST", "PUT", "DELETE", "OPTIONS"],
               ["Accept", "Authorization", "Content-Type", "X-Requested-With"], [], false, 300)
  }

  const AllowOrigin := "Access-Control-Allow-Origin"
  const AllowCredentials := "Access-Control-Allow-Credentials"
  const ExposeHeaders := "Access-Control-Expose-Headers"
  const AllowMethods := "Access-Control-Allow-Methods"
  const AllowHeaders := "Access-Control-Allow-Headers"
  const MaxAge := "Access-Control-Max-Age"
  const StatusNoContent := 204

  /** The six header names are distinct. */
  lemma HeaderNamesDistinct()
    ensures AllowOrigin != AllowCredentials && AllowOrigin != ExposeHeaders && AllowOrigin != AllowMethods
    ensures AllowOrigin != AllowHeaders && AllowOrigin != MaxAge
    ensures AllowCredentials != ExposeHeaders && AllowCredentials != AllowMethods
    ensures AllowCredentials != AllowHeaders && AllowCredentials != MaxAge
    ensures ExposeHeaders != AllowMethods && ExposeHeaders != AllowHeaders && ExposeHeaders != MaxAge
    ensures AllowMethods != AllowHeaders && AllowMethods != MaxAge && AllowHeaders != MaxAge
  {
    assert |AllowOrigin| == 27 && |AllowCredentials| == 32 && |ExposeHeaders| == 29;
    assert |AllowMethods| == 28 && |AllowHeaders| == 28 && |MaxAge| == 22;
    assert AllowMethods[21] == 'M' && AllowHeaders[21] == 'H';
  }

  /** An entry that decides for `origin`: the wildcard or the origin itself. */
  predicate Decides(entry: string, origin: string) {
    entry == "*" || entry == origin
  }

  /** The origin to allow: decided by the first deciding entry, "" when none does. */
  function AllowedOrigin(origin: string, allowed: seq<string>): (r: string)
    ensures r == "" || r == "*" || r == origin
    ensures (forall i | 0 <= i < |allowed| :: !Decides(allowed[i], origin)) ==> r == ""
    ensures (exists i | 0 <= i < |allowed| :: Decides(allowed[i], origin)) ==> exists i | 0 <= i < |allowed| ::
      Decides(allowed[i], origin) && r == allowed[i]
      && forall j | 0 <= j < i :: !Decides(allowed[j], origin)
    decreases |allowed|
  {
    if allowed == [] then ""
    else if allowed[0] == "*" then "*"
    else if allowed[0] == origin then origin
    else
      var r := AllowedOrigin(origin, allowed[1..]);
      assert forall i | 0 < i < |allowed| :: allowed[i] == allowed[1..][i - 1];
      r
  }

  /** `isOriginAllowed` */
  method IsOriginAllowed(origin: string, allowedOrigins: seq<string>) returns (r: string)
    ensures r == AllowedOrigin(origin, allowedOrigins)
  {
    if |allowedOrigins| == 0 {
      return "";
    }
    for i := 0 to |allowedOrigins|
      invariant AllowedOrigin(origin, allowedOrigins) == AllowedOrigin(origin, allowedOrigins[i..])
    {
      assert allowedOrigins[i..][1..] == allowedOrigins[i + 1..];
      if allowedOrigins[i] == "*" {
        return "*";
      }
      if allowedOrigins[i] == origin {
        return origin;
      }
    }
    return "";
  }

  /** An exact origin entry listed before any wildcard is echoed back. */
  lemma ListedOriginEchoed(origin: string, allowed: seq<string>, i: int)
    requires 0 <= i < |allowed| && allowed[i] == origin
    requires forall j | 0 <= j < i :: allowed[j] != "*"
    ensures AllowedOrigin(origin, allowed) == origin
  {
  }

  /** The headers the middleware sets, given the request's `Origin` and whether
      it is a preflight (`OPTIONS`) request. */
  function CorsHeaders(config: CorsConfig, origin: string, preflight: bool): (h: map<string, string>)
    ensures AllowOrigin in h <==> AllowedOrigin(origin, config.allowedOrigins) != ""
    ensures AllowOrigin in h ==> h[AllowOrigin] == AllowedOrigin(origin, config.allowedOrigins)
    ensures AllowCredentials in h <==> config.allowCredentials
    ensures AllowCredentials in h ==> h[AllowCredentials] == "true"
    ensures ExposeHeaders in h <==> |config.exposedHeaders| > 0
    ensures ExposeHeaders in h ==> h[ExposeHeaders] == Join(config.exposedHeaders, ", ")
    ensures h.Keys <= {AllowOrigin, AllowCredentials, ExposeHeaders, AllowMethods, AllowHeaders, MaxAge}
  {
    HeaderNamesDistinct();
    var common := CommonHeaders(config, origin);
    if preflight then PreflightHeaders(config, common) else common
  }

  /** The preflight-only headers appear on a preflight alone, each when its setting is non-empty. */
  lemma PreflightOnlyHeaders(config: CorsConfig, origin: string, preflight: bool)
    ensures var h := CorsHeaders(config, origin, preflight);
      && (AllowMethods in h <==> preflight && |config.allowedMethods| > 0)
      && (AllowMethods in h ==> h[AllowMethods] == Join(config.allowedMethods, ", "))
      && (AllowHeaders in h <==> preflight && |config.allowedHeaders| > 0)
      && (AllowHeaders in h ==> h[AllowHeaders] == Join(config.allowedHeaders, ", "))
      && (MaxAge in h <==> preflight && config.maxAge > 0)
      && (MaxAge in h ==> h[MaxAge] == IntToString(config.maxAge))
  {
    HeaderNamesDistinct();
  }

  /** The headers every request receives. */
  function CommonHeaders(config: CorsConfig, origin: string): (h: map<string, string>)
    ensures AllowOrigin in h <==> AllowedOrigin(origin, config.allowedOrigins) != ""
    ensures AllowOrigin in h ==> h[AllowOrigin] == AllowedOrigin(origin, config.allowedOrigins)
    ensures AllowCredentials in h <==> config.allowCredentials
    ensures AllowCredentials in h ==> h[AllowCredentials] == "true"
    ensures ExposeHeaders in h <==> |config.exposedHeaders| > 0
    ensures ExposeHeaders in h ==> h[ExposeHeaders] == Join(config.exposedHeaders, ", ")
    ensures h.Keys <= {AllowOrigin, AllowCredentials, ExposeHeaders}
  {
    var allow := AllowedOrigin(origin, config.allowedOrigins);
    var h0: map<string, string> := map[];
    var h1 := SetIf(h0, allow != "", AllowOrigin, allow);
    var h2 := SetIf(h1, config.allowCredentials, AllowCredentials, "true");
    SetIf(h2, |config.exposedHeaders| > 0, ExposeHeaders, Join(config.exposedHeaders, ", "))
  }

  /** `h` with the preflight-only headers added. */
  function PreflightHeaders(config: CorsConfig, h: map<string, string>): (r: map<string, string>)
    ensures AllowMethods in r <==> AllowMethods in h || |config.allowedMethods| > 0
    ensures |config.allowedMethods| > 0 ==> r[AllowMethods] == Join(config.allowedMethods, ", ")
    ensures AllowHeaders in r <==> AllowHeaders in h || |config.allowedHeaders| > 0
    ensures |config.allowedHeaders| > 0 ==> r[AllowHeaders] == Join(config.allowedHeaders, ", ")
    ensures MaxAge in r <==> MaxAge in h || config.maxAge > 0
    ensures config.maxAge > 0 ==> r[MaxAge] == IntToString(config.maxAge)
    ensures forall k | k in h && k !in {AllowMethods, AllowHeaders, MaxAge} :: k in r && r[k] == h[k]
    ensures r.Keys <= h.Keys + {AllowMethods, AllowHeaders, MaxAge}
  {
    var h4 := SetIf(h, |config.allowedMethods| > 0, AllowMethods, Join(config.allowedMethods, ", "));
    var h5 := SetIf(h4, |config.allowedHeaders| > 0, AllowHeaders, Join(config.allowedHeaders, ", "));
    SetIf(h5, config.maxAge > 0, MaxAge, IntToString(config.maxAge))
  }

  /** `Header().Set(k, v)` when `cond` holds. */
  function SetIf(h: map<string, string>, cond: bool, k: string, v: string): map<string, string> {
    if cond then h[k := v] else h
  }

  /** Setting a header on a merged map is setting it on the right-hand side. */
  lemma MergeSetIf(a: map<string, string>, b: map<string, string>, cond: bool, k: string, v: string)
    ensures SetIf(a + b, cond, k, v) == a + SetIf(b, cond, k, v)
  {
  }

  /** A non-preflight request differs from a preflight only in the preflight-only headers. */
  lemma PassthroughOmitsPreflightHeaders(config: CorsConfig, origin: string)
    ensures var h := CorsHeaders(config, origin, false);
      AllowMethods !in h && AllowHeaders !in h && MaxAge !in h
    ensures CorsHeaders(config, origin, false)
         == CorsHeaders(config, origin, true) - {AllowMethods, AllowHeaders, MaxAge}
  {
    PreflightOnlyHeaders(config, origin, false);
    PreflightOnlyHeaders(config, origin, true);
    var a := CorsHeaders(config, origin, false);
    var b := CorsHeaders(config, origin, true) - {AllowMethods, AllowHeaders, MaxAge};
    assert a.Keys == b.Keys;
  }

  /** With the defaults every origin is allowed as `*`, and a preflight learns the
      five methods, the four headers and a five-minute cache lifetime. */
  lemma DefaultPreflight(origin: string)
    ensures var h := CorsHeaders(DefaultCorsConfig(), origin, true);
      h[AllowOrigin] == "*" && AllowCredentials !in h && ExposeHeaders !in h
      && h[AllowMethods] == Join(["GET", "POST", "PUT", "DELETE", "OPTIONS"], ", ")
      && h[AllowHeaders] == Join(["Accept", "Authorization", "Content-Type", "X-Requested-With"], ", ")
      && h[MaxAge] == "300"
  {
    PreflightOnlyHeaders(DefaultCorsConfig(), origin, true);
    assert NatToString(300) == NatToString(30) + ['0'];
    assert NatToString(30) == NatToString(3) + ['0'];
  }

  /** As written, a wildcard origin list with credentials allowed is accepted, and
      the response carries both `*` and `Allow-Credentials: true`. */
  lemma CredentialsWithWildcard(origin: string)
    ensures var h := CorsHeaders(DefaultCorsConfig().(allowCredentials := true), origin, false);
      h[AllowOrigin] == "*" && h[AllowCredentials] == "true"
  {
  }

  lemma PreflightOverMerge(config: CorsConfig, a: map<string, string>, b: map<string, string>)
    ensures PreflightHeaders(config, a + b) == a + PreflightHeaders(config, b)
  {
    var h4 := SetIf(b, |config.allowedMethods| > 0, AllowMethods, Join(config.allowedMethods, ", "));
    var h5 := SetIf(h4, |config.allowedHeaders| > 0, AllowHeaders, Join(config.allowedHeaders, ", "));
    MergeSetIf(a, b, |config.allowedMethods| > 0, AllowMethods, Join(config.allowedMethods, ", "));
    MergeSetIf(a, h4, |config.allowedHeaders| > 0, AllowHeaders, Join(config.allowedHeaders, ", "));
    MergeSetIf(a, h5, config.maxAge > 0, MaxAge, IntToString(config.maxAge));
  }

  /** The response as the middleware leaves it. */
  class Response {
    var headers: map<string, string>
    var status: int        // 0 while no status has been written
    var nextCalled: bool

    constructor()
      ensures headers == map[] && status == 0 && !nextCalled
    {
      headers := map[];
      status := 0;
      nextCalled := false;
    }

    /** The middleware's handler: headers set one by one; a preflight is answered
        with 204 and never reaches `next`. */
    method Handle(config: CorsConfig, requestHeaders: map<string, string>, requestMethod: string)
      requires !nextCalled
      modifies this
      ensures var origin := if "Origin" in requestHeaders then requestHeaders["Origin"] else "";
        headers == old(headers) + CorsHeaders(config, origin, requestMethod == "OPTIONS")
      ensures requestMethod == "OPTIONS" ==> status == StatusNoContent && !nextCalled
      ensures requestMethod != "OPTIONS" ==> nextCalled && status == old(status)
    {
      var origin := if "Origin" in requestHeaders then requestHeaders["Origin"] else "";
      SetCommonHeaders(config, origin);
      if requestMethod == "OPTIONS" {
        SetPreflightHeaders(config);
        PreflightOverMerge(config, old(headers), CommonHeaders(config, origin));
        status := StatusNoContent;
        return;
      }
      nextCalled := true;
    }

    method SetCommonHeaders(config: CorsConfig, origin: string)
      modifies this
      ensures headers == old(headers) + CommonHeaders(config, origin)
      ensures status == old(status) && nextCalled == old(nextCalled)
    {
      var allowOrigin := IsOriginAllowed(origin, config.allowedOrigins);
      ghost var h1 := SetIf(map[], allowOrigin != "", AllowOrigin, allowOrigin);
      MergeSetIf(old(headers), map[], allowOrigin != "", AllowOrigin, allowOrigin);
      if allowOrigin != "" {
        headers := headers[AllowOrigin := allowOrigin];
      }
      assert headers == old(headers) + h1;
      ghost var h2 := SetIf(h1, config.allowCredentials, AllowCredentials, "true");
      MergeSetIf(old(headers), h1, config.allowCredentials, AllowCredentials, "true");
      if config.allowCredentials {
        headers := headers[AllowCredentials := "true"];
      }
      assert headers == old(headers) + h2;
      MergeSetIf(old(headers), h2, |config.exposedHeaders| > 0, ExposeHeaders, Join(config.exposedHeaders, ", "));
      if |config.exposedHeaders| > 0 {
        headers := headers[ExposeHeaders := Join(config.exposedHeaders, ", ")];
      }
    }

    method SetPreflightHeaders(config: CorsConfig)
      modifies this
      ensures headers == PreflightHeaders(config, old(headers))
      ensures status == old(status) && nextCalled == old(nextCalled)
    {
      if |config.allowedMethods| > 0 {
        headers := headers[AllowMethods := Join(config.allowedMethods, ", ")];
      }
      ghost var h4 := headers;
      assert h4 == SetIf(old(headers), |config.allowedMethods| > 0, AllowMethods, Join(config.allowedMethods, ", "));
      if |config.allowedHeaders| > 0 {
        headers := headers[AllowHeaders := Join(config.allowedHeaders, ", ")];
      }
      ghost var h5 := headers;
      assert h5 == SetIf(h4, |config.allowedHeaders| > 0, AllowHeaders, Join(config.allowedHeaders, ", "));
      if config.maxAge > 0 {
        headers := headers[MaxAge := IntToString(config.maxAge)];
      }
    }
  }
}
