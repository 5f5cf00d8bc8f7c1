# gms-foundation core, modelled in Dafny

This project models the decision and state logic of the Go service-helper
library `gms-foundation`: the code that sits between the library calls.
Every I/O step, parser and cryptographic primitive is turned into a value or a
function-typed parameter. The modelled packages are:

- `oauth2` (`GenerateState`, `GeneratePKCE`), with an RFC 4648 base64url codec.
- `oauth2/apple`:
  - the token exchange and the ES256 client-secret assertion;
  - the ID-token verifier with its JWKS key cache, which is a class holding `keys` and `expiresAt`.
- `oauth2/google`: the token exchange and the userinfo call.
- `canonical`: the URL canonicalization pipeline and the mutable tracking-parameter set.
- `uploads`: category options, classification, the size limit, content checks and the delete guard.
- `redis`: address defaulting, client options and the Sentinel/standalone choice.
- `envconfig`: typed lookups over an environment map.
- `middleware`:
  - CORS origin matching and the response headers it sets;
  - the request logger's status and byte recorder, log levels and skip set.
- `mongodb`: options, `buildClientOpts`, the CSFLE master-key check, `Close`,
  `PlainDB` and `IsMongocryptError`.

Where a Go function updates state step by step, the model does the same:
- a `class` with `modifies` clauses: `JwksCache`, `TrackingParams`,
  `ResponseRecorder` and the CORS `Response`;
- a `method` with loop invariants.

Each such method is proved equal to a specification function, and the
properties that matter are proved about those functions.

Files, one Dafny module each:

| file | module | models |
|---|---|---|
| wrappers.dfy | Wrappers | `Option` / `Result` |
| text.dfy | Text | `strings.TrimSpace`, `ToLower` (ASCII), `Contains`, `Split`/`Join`, `strconv.Itoa`/`Atoi` |
| sorting.dfy | Sorting | `sort.Strings`: sorted and a permutation |
| base64.dfy | Base64 | RFC 4648 base64url encoding and decoding, padded and raw |
| http.dfy | Http | the outcome of one HTTP round trip |
| oauth2.dfy | OAuth2 | `pkg/oauth2/oauth2.go` |
| token_exchange.dfy | TokenExchange | the shared authorization-code exchange of `apple.go` and `google.go` |
| apple_client.dfy | AppleClient | `pkg/oauth2/apple/apple.go` |
| apple_verify.dfy | AppleVerify | `pkg/oauth2/apple/verify.go` |
| google.dfy | Google | `pkg/oauth2/google/google.go` |
| canonical.dfy | Canonical | `pkg/canonical/canonical.go` |
| uploads.dfy | Uploads | `pkg/uploads/uploads.go` |
| redis.dfy | Redis | `pkg/redis/redis.go` |
| envconfig.dfy | EnvConfig | `pkg/envconfig/envconfig.go` |
| cors.dfy | Cors | `pkg/middleware/cors.go` |
| logging.dfy | Logging | `pkg/middleware/logging.go` |
| mongodb.dfy | MongoDb | `pkg/mongodb/mongodb.go` |

The inputs the model takes, in place of what the Go code reaches for:
- **Time:** the current time, as whole Unix seconds.
- **Randomness:** the random bytes read from the system source.
- **Network:** the outcome of each HTTP round trip (no request built, transport
  error, or a status with a body that did or did not decode).
- **Driver and file-system calls:** the outcome of each one.
- **Library functions**, passed as parameters:
  - `url.Parse`, `url.QueryEscape`, `filepath.Clean`/`Abs`/`Rel` and `http.DetectContentType`;
  - SHA-256, known only to return 32 bytes;
  - the ES256 signer and the JWT library's signature check;
  - the UUID used as a file name.

Where the tests and the code disagree, the model follows the code:
- **envconfig.** `Required` returns a variable that is set but empty without error,
  while `pkg/envconfig/envconfig_test.go:30-36` expects an error.
- **CORS.** The middleware neither panics on a wildcard with credentials nor sets `Vary`,
  while `pkg/middleware/cors_test.go:62-91` expects both.
- **uploads.** The image mismatch message reads "does not match declared type",
  not "does not match declared image type".

## Model

| member | source | states |
|---|---|---|
| OAuth2.GenerateState | pkg/oauth2/oauth2.go:16-22 | an error exactly when the random source fails, with its message; otherwise padded base64url that decodes back to exactly the bytes drawn and has 4 * ceil(n / 3) characters |
| OAuth2.GeneratePKCE | pkg/oauth2/oauth2.go:25-39 | no pair when the random source fails; the verifier uses only the URL-safe alphabet, has no '=', decodes back to the random bytes and has ceil(4n / 3) characters; the challenge is the S256 transform of the verifier, 43 characters long |
| OAuth2.VerifierLengthInRange | pkg/oauth2/oauth2.go:25-39 | 32 to 96 random bytes give a verifier of 43 to 128 characters, the range section 4.1 of RFC 7636 demands |
| OAuth2.AsciiBytes | pkg/oauth2/oauth2.go:32 | `[]byte(verifier)` of an ASCII string has one byte per character |
| Base64.DecodeEncode | pkg/oauth2/oauth2.go:21 | decoding the encoding of any byte string, padded or raw, gives it back |
| Base64.EncodedLength | pkg/oauth2/oauth2.go:21 | the padded form has 4 * ceil(n / 3) characters and the raw form ceil(4n / 3) |
| Base64.PaddedIsRawPlusPadding | pkg/oauth2/oauth2.go:30 | the raw encoding is the padded one with its trailing '=' removed |
| Base64.RawUsesAlphabet | pkg/oauth2/oauth2.go:30 | the raw encoding uses only the URL-safe alphabet of section 5 of RFC 4648 |
| TokenExchange.AuthorizationCodeForm | pkg/oauth2/apple/apple.go:32-39 | the token request form has exactly the six fields, each with the one value given, `grant_type=authorization_code` |
| TokenExchange.CollapseOutcome | pkg/oauth2/apple/apple.go:42-61 | success exactly on status 200 with a decoded body, returning that body; every other ending is "token exchange failed" |
| TokenExchange.FailuresIndistinguishable | pkg/oauth2/apple/apple.go:42-61 | any two failed exchanges report identical errors |
| TokenExchange.ExchangeCode | pkg/oauth2/apple/apple.go:31-62 | a form-urlencoded POST of the six-field form to the endpoint; the result is the collapsed outcome |
| AppleClient.ExchangeCode | pkg/oauth2/apple/apple.go:31-62 | the POST goes to Apple's token endpoint with the six fields as a form; only 200 with a decoded body succeeds, every failure reads "token exchange failed" |
| AppleClient.ClientSecretToken | pkg/oauth2/apple/apple.go:83-93 | claims iss = team ID, sub = client ID, aud = Apple, exp = iat + 300; header alg ES256 with kid = key ID |
| AppleClient.GenerateClientSecret | pkg/oauth2/apple/apple.go:67-96 | a missing PEM block, a PKCS8 failure and a non-ECDSA key each give their own error and no token; an ECDSA key gives the signature of the client-secret token |
| Google.ExchangeCode | pkg/oauth2/google/google.go:35-66 | the POST goes to Google's token endpoint with the six fields, form-urlencoded; only 200 with a decoded body succeeds, every failure reads "token exchange failed" |
| Google.GetUserInfo | pkg/oauth2/google/google.go:69-91 | a GET whose only header is `Authorization: Bearer <token>`; success exactly on 200 with a decoded body; a decode failure after 200 and only that reads "failed to decode userinfo response", every other failure "userinfo request failed" |
| AppleVerify.CurveOf | pkg/oauth2/apple/verify.go:175-184 | a curve exists exactly for "P-256", "P-384" and "P-521" |
| AppleVerify.ParseJwk | pkg/oauth2/apple/verify.go:155-186 | an entry yields a key exactly when it is an EC signing key with decodable `x`/`y` and a supported curve; the key is that curve with big-endian `x` and `y` |
| AppleVerify.KeysFromDomain | pkg/oauth2/apple/verify.go:155-187 | a kid is in the rebuilt map exactly when some accepted entry carries it |
| AppleVerify.KeysFromLastWins | pkg/oauth2/apple/verify.go:155-187 | the map holds, for a kid, the key of the last accepted entry carrying it |
| AppleVerify.JwksCache.BuildKeys | pkg/oauth2/apple/verify.go:155-187 | the refresh loop builds exactly the filtered, last-wins map |
| AppleVerify.Find | pkg/oauth2/apple/verify.go:116-120 | the cached key for the kid, or "not found" exactly when it is absent |
| AppleVerify.Resolve | pkg/oauth2/apple/verify.go:111-197 | fresh cache: answered from the map, no fetch, state unchanged; stale cache with a failed refresh: an error other than not-found, state unchanged; stale cache with a successful refresh: the map replaced wholesale by the filtered keys, expiry now + 1 h, answered from the new map |
| AppleVerify.FreshIgnoresFetch | pkg/oauth2/apple/verify.go:115-121 | while the cache is fresh the fetch outcome plays no part |
| AppleVerify.SecondLookupHitsCache | pkg/oauth2/apple/verify.go:189-196 | after a successful refresh, whether or not it found the kid, any lookup within the hour is served from the new map without a fetch |
| AppleVerify.JwksCache.constructor | pkg/oauth2/apple/verify.go:29-31 | the cache starts empty and expired |
| AppleVerify.JwksCache.GetPublicKey | pkg/oauth2/apple/verify.go:111-197 | the result, the fetch flag and the new `keys`/`expiresAt` are exactly those of `Resolve` on the old state |
| AppleVerify.CheckClaims | pkg/oauth2/apple/verify.go:71-107 | success exactly when exp is present with exp + 60 >= now, iat if present is at most now + 60, aud is the audience string and iss is Apple's, returning the claims unchanged; each error reported exactly when the checks before it pass and its own fails |
| AppleVerify.ExpirySkewExamples | pkg/oauth2/apple/verify.go:74-80 | the claim checks after `jwt.Parse` accept exp 30 s in the past and reject exp 2 h in the past as expired |
| AppleVerify.KidOf | pkg/oauth2/apple/verify.go:38-46 | a kid exactly when the token parses and its header has a string `kid` |
| AppleVerify.VerifyWithKey | pkg/oauth2/apple/verify.go:54-69 | a non-ECDSA algorithm and a bad signature are rejected before any claim is examined |
| AppleVerify.Verify | pkg/oauth2/apple/verify.go:36-108 | the checks run in order (kid, key, algorithm and signature, then claims); a token without a kid leaves the cache untouched; success implies an ECDSA token whose claims pass every check, returned unchanged |
| AppleVerify.JwksCache.VerifyIDToken | pkg/oauth2/apple/verify.go:36-108 | result, fetch flag and new cache state are exactly those of `Verify` on the old state |
| Canonical.DefaultTrackingParamsLowered | pkg/canonical/canonical.go:14-44 | the strip list used is the declared one with each name lower-cased, and every name in it is lower-case |
| Canonical.ListedNameStripped | pkg/canonical/canonical.go:115-123 | a listed tracking name, in any letter case, is stripped from the query |
| Canonical.HsCtaTrackingSurvivesAsWritten | pkg/canonical/canonical.go:38 | with the list as declared, a key spelled `hsCtaTracking` in any case is not stripped |
| Canonical.HsCtaTrackingKeptAsWritten | pkg/canonical/canonical.go:113-127 | under the set the package starts from, a `hsCtaTracking` key in any case stays in the cleaned query with all its values |
| Canonical.TrackingParams.constructor | pkg/canonical/canonical.go:14-44 | the initial set is the strip list exactly as declared, `hsCtaTracking` included in mixed case |
| Canonical.TrackingParams.AddTrackingParams | pkg/canonical/canonical.go:50-56 | the new set is the old one plus the lower-cased names given |
| Canonical.WithScheme | pkg/canonical/canonical.go:63-71 | an error exactly for empty or blank input; otherwise the trimmed input, prefixed with "https://" unless it has "://" already |
| Canonical.NormalizeHost | pkg/canonical/canonical.go:83-94 | the host lower-cased, losing ":80" only under http and ":443" only under https |
| Canonical.HostOf | pkg/canonical/canonical.go:84-94 | the host steps compute `NormalizeHost` |
| Canonical.NormalizePathAsWritten | pkg/canonical/canonical.go:102-109 | empty path becomes "/", a one-character path is kept, a longer one loses all trailing '/' |
| Canonical.NormalizePathAsWrittenNotIdempotent | pkg/canonical/canonical.go:102-109 | as written, "//" becomes "", which a second pass turns into "/" |
| Canonical.NormalizePath | pkg/canonical/canonical.go:102-109 | never empty; "/" exactly for an all-slash path; otherwise the path minus its trailing slashes, not ending with '/' |
| Canonical.NormalizePathIdempotent | pkg/canonical/canonical.go:102-109 | the corrected path rule is idempotent |
| Canonical.NormalizePathAgrees | pkg/canonical/canonical.go:102-109 | the corrected rule equals the code on every path but those of two or more slashes only |
| Canonical.CleanQuery | pkg/canonical/canonical.go:113-127 | a key whose lower-cased form is listed or starts with `utm_` is dropped; every other key is kept with all its values |
| Canonical.CleanQueryIgnoresTracking | pkg/canonical/canonical.go:115-123 | adding or replacing a tracking parameter leaves the cleaned query unchanged |
| Canonical.TrackingParams.CleanQueryLoop | pkg/canonical/canonical.go:113-127 | the loop over the query computes `CleanQuery` under the current set |
| Canonical.Add | pkg/canonical/canonical.go:125 | `url.Values.Add` appends the value to the key's list and leaves other keys alone |
| Canonical.AddAll | pkg/canonical/canonical.go:124-126 | adding every value of a new key in turn stores exactly that list |
| Sorting.SortStrings | pkg/canonical/canonical.go:136 | `sort.Strings` returns a sorted permutation of its input |
| Sorting.SortIgnoresOrder | pkg/canonical/canonical.go:132-136 | the sorted keys do not depend on the map's iteration order |
| Canonical.SortedKeys | pkg/canonical/canonical.go:132-136 | the keys gathered in any order and sorted are the map's keys in increasing order |
| Canonical.PairsFor | pkg/canonical/canonical.go:142-144 | one escaped `key=value` pair per value, in order |
| Canonical.Parts | pkg/canonical/canonical.go:138-145 | the pairs of each key in key order, each key's values sorted |
| Canonical.QueryPartsCount | pkg/canonical/canonical.go:138-145 | at least one pair per kept key |
| Canonical.RawQueryOf | pkg/canonical/canonical.go:131-149 | the query steps compute the sorted, `&`-joined serialization, empty when nothing is kept |
| Canonical.UrlHead | pkg/canonical/canonical.go:151 | as `URL.String()` writes it: "scheme:" only for a non-empty scheme, "//" and the host under a host (or a scheme with a path), a '/' before an unrooted path under a host, then the path |
| Canonical.Serialize | pkg/canonical/canonical.go:151 | the output starts with that head, and is longer exactly when a query is present or forced, the rest being "?" and the query |
| Canonical.Hex | pkg/canonical/canonical.go:155 | two lower-case hex digits per byte |
| Canonical.HashShape | pkg/canonical/canonical.go:154-155 | the hash is 64 hex digits and determines the digest |
| Canonical.FromParsed | pkg/canonical/canonical.go:78-157 | an error exactly when the host is empty; otherwise the output starts with the `URL.String()` head of the lower-cased scheme, normalized host and the path under the rule as written, and the hash is the hex SHA-256 of the output alone |
| Canonical.FromParsedPathUnstable | pkg/canonical/canonical.go:102-109 | as written, a URL with path "//" and the same URL with the path it was normalized to get different canonical forms |
| Canonical.NoSchemeGivesNetworkPath | pkg/canonical/canonical.go:69-76 | a URL parsed without a scheme but with a host (input such as "//example.com/a?next=https://b.com") canonicalizes to "//" and the lower-cased host, with no ':' in front |
| Canonical.FromParsedCorrected | pkg/canonical/canonical.go:78-157 | the same steps with the corrected path rule: an error exactly when the host is empty; otherwise the output starts with the head of scheme, host and corrected path, hashed alone |
| Canonical.FromParsedCorrectedPathStable | pkg/canonical/canonical.go:102-109 | with the corrected rule, re-normalizing the path leaves the canonical form unchanged, and it equals the code's output on every path but those of two or more slashes only |
| Canonical.CanonicalizeSpec | pkg/canonical/canonical.go:62-158 | blank input is exactly the "empty URL" error; input without "://" is parsed with "https://" prefixed and finished by `FromParsed`, the code as written |
| Canonical.SchemeKept | pkg/canonical/canonical.go:69-76 | input that has "://" is parsed as trimmed |
| Canonical.FragmentIgnored | pkg/canonical/canonical.go:97-98 | the fragment does not affect the result |
| Canonical.CaseInsensitiveSchemeAndHost | pkg/canonical/canonical.go:83-84 | URLs differing only in scheme and host letter case get the same canonical form and hash |
| Canonical.TrackingParamIgnored | pkg/canonical/canonical.go:112-128 | adding a tracking parameter does not change the canonical form or hash |
| Canonical.TrackingParams.FromParsedUrl | pkg/canonical/canonical.go:78-157 | the normalization steps on a parsed URL, path rule as written, compute `FromParsed` |
| Canonical.TrackingParams.Canonicalize | pkg/canonical/canonical.go:62-158 | the method computes `CanonicalizeSpec`, the code as written, under the current tracking set |
| Uploads.DefaultCategoriesShape | pkg/uploads/uploads.go:23-49 | images first (10 MiB, four types), then audio (50 MiB, five types, two of them `.m4a`) |
| Uploads.WithCategoryAppends | pkg/uploads/uploads.go:64-66 | `WithCategory` appends and keeps every earlier category |
| Uploads.WithCategoriesReplaces | pkg/uploads/uploads.go:59-61 | `WithCategories` discards everything configured before it |
| Uploads.NewStorage | pkg/uploads/uploads.go:76-92 | the defaults with the options applied in order; the first subdirectory that cannot be created is reported, else the storage |
| Uploads.FirstMatch | pkg/uploads/uploads.go:157-173 | the first category, in list order, allowing the MIME type; none exactly when no category allows it |
| Uploads.Classify | pkg/uploads/uploads.go:166-173 | the first allowing category with its extension, or "not supported" exactly when there is none |
| Uploads.CategoryFor | pkg/uploads/uploads.go:157-164 | that category's subdirectory, or "" exactly when classification fails |
| Uploads.DefaultCategoryFor | pkg/uploads/uploads.go:23-49 | under the defaults each listed image type lands in images, each audio type in audio, anything else nowhere |
| Uploads.ReadLimited | pkg/uploads/uploads.go:104-108 | at most the limit is read, as a prefix of the stream; a read error surfaces only when the stream ends before the limit |
| Uploads.ValidateContent | pkg/uploads/uploads.go:177-209 | empty data is refused; image types need an exact detected match; audio types accept any `audio/`, octet stream or `video/mp4` detection; any other type passes |
| Uploads.EmptyRejectedBeforeDetection | pkg/uploads/uploads.go:178-180 | empty data is refused whatever the detector would say |
| Uploads.StoreClassified | pkg/uploads/uploads.go:104-126 | success returns `subdir/name + ext`; anything written is the whole non-empty upload within the size limit, at base directory joined with that path; data over the limit is refused with nothing written; at the largest `int64` limit `MaxSize+1` wraps and every upload is refused as empty |
| Uploads.LargestLimitRefusesAll | pkg/uploads/uploads.go:104-105 | a limit of MaxInt64 wraps to MinInt64 when incremented, the limited read yields nothing and nothing is ever written |
| Uploads.SaveFile | pkg/uploads/uploads.go:97-127 | an unsupported type is refused with nothing written; otherwise the stages run with the first matching category and its extension |
| Uploads.SizeBoundary | pkg/uploads/uploads.go:104-111 | below the largest `int64` limit, data of exactly the limit passes the size check, one byte more does not |
| Uploads.WriteOnlyAfterChecks | pkg/uploads/uploads.go:104-126 | a file is written only after reading, the size check and the content check pass |
| Uploads.DeleteFile | pkg/uploads/uploads.go:130-153 | a cleaned path containing ".." is refused with nothing removed; what is removed resolves inside the base directory |
| Redis.ResolveAddr | pkg/redis/redis.go:117-131 | the backward scan computes `ResolvedAddr`: "localhost:6379" for "", unchanged when a ':' follows the last ']', else ":6379" appended |
| Redis.ResolvedHasPort | pkg/redis/redis.go:117-131 | the resolved address always names a port and contains ':' |
| Redis.ResolvedAddrIdempotent | pkg/redis/redis.go:117-131 | resolving twice is resolving once |
| Redis.BracketedIpv6GetsPort | pkg/redis/redis.go:121-130 | "[::1]" gets the default port; "[::1]:7000" is kept |
| Redis.Apply | pkg/redis/redis.go:67-94 | each option sets its own field to its value and leaves every other field alone |
| Redis.DefaultsWithoutOptions | pkg/redis/redis.go:52-61 | without options: 5 s ping and dial timeouts, pool of 10, 2 idle connections, 3 s read and write timeouts |
| Redis.ApplyAll | pkg/redis/redis.go:137-140 | the last option leaves its value in its field, and a field no option names keeps its starting value |
| Redis.LastOptionWins | pkg/redis/redis.go:137-140 | applied in order, each field ends with the value of the last option setting it, or its starting value |
| Redis.ChooseClient | pkg/redis/redis.go:144-169 | a Sentinel failover client exactly when Sentinel is configured with a master name; otherwise standalone on the resolved address; auth, DB and settings carried over |
| Redis.Connect | pkg/redis/redis.go:136-180 | the defaults with options applied, the chosen client, and "pinging Redis: " with the error when the ping fails |
| EnvConfig.Required | pkg/envconfig/envconfig.go:15-21 | an error exactly when the variable is unset; a set value, even an empty one, is returned |
| EnvConfig.Optional | pkg/envconfig/envconfig.go:25-30 | the value when set and non-empty, else the default |
| EnvConfig.OptionalBool | pkg/envconfig/envconfig.go:35-48 | true for true/1/yes and false for false/0/no in any letter case; the default otherwise |
| EnvConfig.OptionalBoolCaseInsensitive | pkg/envconfig/envconfig.go:38 | "TRUE" and "Yes" read as true |
| EnvConfig.OptionalInt | pkg/envconfig/envconfig.go:52-62 | the value read as a 64-bit decimal integer, else the default |
| EnvConfig.OptionalIntReadsItoa | pkg/envconfig/envconfig.go:57 | any 64-bit integer written in decimal is read back |
| EnvConfig.TrimAll | pkg/envconfig/envconfig.go:88-95 | the loop keeps the parts trimmed, in order, blank ones dropped |
| EnvConfig.TrimmedNonBlankElements | pkg/envconfig/envconfig.go:88-95 | every kept element is non-empty, trimmed and the trimmed form of some part |
| EnvConfig.TrimmedNonBlankEmpty | pkg/envconfig/envconfig.go:88-98 | nothing is left exactly when every part is blank |
| EnvConfig.OptionalStringSlice | pkg/envconfig/envconfig.go:82-100 | the default when unset or empty, otherwise the trimmed non-blank parts, or the default when none remain |
| EnvConfig.StringSliceDefault | pkg/envconfig/envconfig.go:84-98 | with the variable set, the default comes back exactly when every part is blank |
| Cors.AllowedOrigin | pkg/middleware/cors.go:83-98 | always "", "*" or the origin; the first entry that is "*" or the origin decides; "" when none does |
| Cors.IsOriginAllowed | pkg/middleware/cors.go:83-98 | the first-match loop computes `AllowedOrigin` |
| Cors.ListedOriginEchoed | pkg/middleware/cors.go:88-95 | an origin listed before any wildcard is echoed back |
| Cors.CommonHeaders | pkg/middleware/cors.go:42-57 | Allow-Origin exactly when an origin is allowed, with that value; Allow-Credentials "true" exactly when credentials are allowed; Expose-Headers the ", "-join exactly when the list is non-empty |
| Cors.PreflightHeaders | pkg/middleware/cors.go:60-75 | Allow-Methods and Allow-Headers set exactly when their lists are non-empty, Max-Age exactly when positive; other headers untouched |
| Cors.CorsHeaders | pkg/middleware/cors.go:42-75 | the headers of a request: the three common headers by their rules, nothing outside the six CORS headers |
| Cors.PreflightOnlyHeaders | pkg/middleware/cors.go:60-75 | Allow-Methods, Allow-Headers and Max-Age appear only on a preflight, each when its setting is non-empty |
| Cors.PassthroughOmitsPreflightHeaders | pkg/middleware/cors.go:77 | a non-preflight request gets the preflight's headers minus the three preflight-only ones |
| Cors.DefaultPreflight | pkg/middleware/cors.go:27-36 | under the defaults every origin is allowed as "*", and a preflight lists the five methods, four headers and Max-Age 300 |
| Cors.CredentialsWithWildcard | pkg/middleware/cors.go:42-54 | as written, a wildcard list with credentials gives both "*" and Allow-Credentials "true" |
| Cors.Response.Handle | pkg/middleware/cors.go:39-80 | the response gains exactly the CORS headers of the request; a preflight ends with 204 and never reaches `next`, any other method calls `next` |
| Cors.Response.SetCommonHeaders | pkg/middleware/cors.go:42-57 | the header map gains exactly the common headers |
| Cors.Response.SetPreflightHeaders | pkg/middleware/cors.go:60-73 | the header map gains exactly the preflight headers |
| Logging.LevelFor | pkg/middleware/logging.go:44-53 | Error exactly for status >= 500, Warn exactly for 400-499, Info exactly below 400 |
| Logging.ResponseRecorder.constructor | pkg/middleware/logging.go:64-67 | the recorded status starts at 200 and the byte count at 0 |
| Logging.ResponseRecorder.WriteHeader | pkg/middleware/logging.go:17-20 | each call overwrites the recorded status, the byte count unchanged |
| Logging.ResponseRecorder.Write | pkg/middleware/logging.go:22-26 | the byte count grows by what the underlying writer reports, which is returned |
| Logging.FinalStatusIsLastWritten | pkg/middleware/logging.go:17-20 | the final status is the last code written, or 200 when none was |
| Logging.Record | pkg/middleware/logging.go:63-70 | the recorder ends with the last status written (200 by default) and the sum of the bytes written |
| Logging.EntryFor | pkg/middleware/logging.go:74-81 | the entry carries method, path, remote address, status, bytes and the level for the status |
| Logging.ServeLogged | pkg/middleware/logging.go:58-84 | every request produces the one entry for its final status and bytes |
| Logging.SkipSet | pkg/middleware/logging.go:89-92 | the skip set contains exactly the given paths |
| Logging.ServeWithSkip | pkg/middleware/logging.go:94-120 | no entry exactly when the path is skipped; otherwise the one entry `ServeLogged` gives |
| Logging.CreatedExample | pkg/middleware/logging.go:44-53 | a 201 with five bytes is logged at info level with both |
| MongoDb.DataEncryptionKeyName | pkg/mongodb/mongodb.go:35-40 | "" for a nil configuration, the DEK name otherwise |
| MongoDb.Apply | pkg/mongodb/mongodb.go:66-79 | each option sets its own field and no other |
| MongoDb.ApplyAll | pkg/mongodb/mongodb.go:177-180 | no options leave the configuration as it is; the last option leaves its value in its field |
| MongoDb.DefaultsWithoutOptions | pkg/mongodb/mongodb.go:57-61 | without options the ping timeout is 5 s, with no app name and no direct flag |
| MongoDb.PingTimeoutKept | pkg/mongodb/mongodb.go:66-79 | options other than `WithPingTimeout` leave the ping timeout alone |
| MongoDb.BuildClientOpts | pkg/mongodb/mongodb.go:135-159 | credentials exactly when a user name is given, the auth source defaulting to the database; app name exactly when non-empty; direct flag as given |
| MongoDb.PlainDB | pkg/mongodb/mongodb.go:99-104 | the plain database when there is one, else the primary one |
| MongoDb.CloseFailures | pkg/mongodb/mongodb.go:114-132 | at most one failure per present handle; none exactly when every present handle shuts down cleanly |
| MongoDb.Close | pkg/mongodb/mongodb.go:114-132 | the present handles are shut in the order encryption, plain client, client; the error joins their failures in that order and is nil exactly when all succeed |
| MongoDb.CloseZeroClient | pkg/mongodb/mongodb.go:114-132 | a zero-value client closes nothing and returns nil |
| MongoDb.ConnectWith | pkg/mongodb/mongodb.go:181-238 | a master key of the wrong length is refused with its length in the message; a connected client has the configured database, and a plain client and encryption handle exactly when CSFLE is on |
| MongoDb.MasterKeyCheckedFirst | pkg/mongodb/mongodb.go:185-187 | a wrong-length master key is refused before any driver call |
| MongoDb.Connect | pkg/mongodb/mongodb.go:176-238 | the options applied in order to the defaults, then the connection set-up |
| MongoDb.IsMongocryptError | pkg/mongodb/mongodb.go:241-243 | true exactly for a non-nil error whose message contains "mongocrypt" |
| MongoDb.MongocryptAnywhere | pkg/mongodb/mongodb.go:241-243 | the marker anywhere in the message is enough |

## Left out

- `OptionalDuration` and `ResolveAbsPath` in envconfig.go: they are a library parser (`time.ParseDuration`) and a working-directory lookup.
- Concurrency is not modelled:
  - the mutex around the JWKS cache;
  - the read-write lock around the tracking set.

  Each method runs as one atomic step.
- `strings.ToLower` is modelled on ASCII letters only; Unicode case mapping is not modelled.
- The library functions below are parameters whose behaviour is not modelled:
  - `url.Parse`, `url.QueryEscape` and SHA-256;
  - the `filepath` functions, `os.MkdirAll`, `os.WriteFile` and `os.Remove`;
  - `http.DetectContentType`;
  - the JWT library and the ES256 signer;
  - UUID generation.
- Canonical.Serialize: `URL.String()`'s own escaping of host and path, its rendering of user information, its `OmitHost` and opaque forms, and the "./" it puts before a scheme-less, host-less path whose first segment holds ':' are not modelled; the parts are concatenated as they are.
- AppleVerify.Resolve: the source reads the clock three times (the freshness test at verify.go:115, the new expiry at verify.go:190 after the fetch, and the claim time at verify.go:71); the model uses one instant `now` per call for all three.
- `%q` quoting in the uploads error messages is modelled as plain double quotes, without Go's escaping of special characters.
- JWT `exp`/`iat` arrive in Go as float64 and are truncated; the model takes them as integers.
- AppleVerify.VerifyWithKey: the JWT library's own checks inside `jwt.Parse` and the `!parsedToken.Valid` test are folded into the `sigValid` predicate. The JSON-decoding branch at verify.go:66-69 is part of that predicate too.
- AppleVerify.ExpirySkewExamples: the 60 s grace on `exp` holds for the claim checks at verify.go:74-80 only. `jwt.Parse` at verify.go:55 already runs the JWT library's default validation, which rejects an expired token with no leeway ("token verification failed"). So through `VerifyIDToken` a token 30 s past `exp` is refused; the model folds that library validation into `sigValid` and does not capture it.
- Logging.ResponseRecorder: `written` is an unbounded integer, so the int64 wrap-around is not modelled; `Flush` and `Unwrap` are plain delegation and are left out. Logging.ServeLogged takes the measured duration as an input, and the zerolog call itself is not modelled.
- OAuth2.GenerateState and OAuth2.GeneratePKCE take the byte length as a `nat`, so the panic of `make` on a negative length is not modelled.
- Redis: the `Ping`, `Close` and `Unwrap` wrappers and the driver's own connection logic are left out. The ping outcome is a parameter.
- MongoDb.ConnectWith: `kmsProviders` is folded into the master key carried by the auto-encryption options. The disconnects `Connect` makes on its failure paths are not modelled. The driver calls are parameters.
- Uploads.DeleteFile: the error messages of the file-system calls are parameters.
- Cors.CorsHeaders: the preflight-only headers are stated in `Cors.PreflightOnlyHeaders`, not in its own contract.

## Findings

| source | as written | input that shows it | evidently intended | confidence | as-written member | corrected member |
|---|---|---|---|---|---|---|
| pkg/canonical/canonical.go:38 | the strip list declares "hsCtaTracking" in mixed case, but lookups use the lower-cased key, so the entry never matches | the query `?hsCtaTracking=1` survives canonicalization | the HubSpot parameter is stripped like the others | not executed | Canonical.HsCtaTrackingSurvivesAsWritten (with Canonical.HsCtaTrackingKeptAsWritten on the set Canonical.TrackingParams.constructor seeds) | Canonical.ListedNameStripped (with Canonical.DefaultTrackingParamsLowered, over the lower-cased list Canonical.DefaultTrackingParams) |
| pkg/canonical/canonical.go:102-108 | a path longer than one character loses every trailing '/', so a path of slashes only becomes "" | "https://a.com//" canonicalizes to "https://a.com", and canonicalizing that again gives "https://a.com/" | an all-slash path becomes the root "/", making canonicalization a fixed point on its own output | not executed | Canonical.NormalizePathAsWrittenNotIdempotent (with Canonical.FromParsedPathUnstable on the pipeline as written) | Canonical.NormalizePathIdempotent (with Canonical.FromParsedCorrectedPathStable on Canonical.FromParsedCorrected) |

`Canonical.TrackingParams` and `Canonical.FromParsed` follow the code as written, so both defects are part of the modelled pipeline; the corrected definitions stand beside them with the intended property proved.
