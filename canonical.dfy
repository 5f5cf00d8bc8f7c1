/** URL canonicalization (package `canonical`): a raw URL is normalized into one
    canonical string, and the hex SHA-256 of that string identifies it. */
module Canonical {
  import opened Wrappers
  import opened Text
  import opened Sorting

  /** The parts of a parsed `url.URL` the canonical form is built from; `query`
      is what `URL.Query()` returns for it. */
  datatype Url = Url(scheme: string, host: string, path: string, forceQuery: bool,
                     query: map<string, seq<string>>, fragment: string)

  datatype CanonError = EmptyUrl | ParseFailed(reason: string) | NoHost

  function ErrorMessage(e: CanonError): string {
    match e
    case EmptyUrl => "empty URL"
    case ParseFailed(reason) => "parsing URL: " + reason
    case NoHost => "URL has no host"
  }

  datatype Canonical = Canonical(url: string, hash: string)

  /** The strip list exactly as the package declares it. */
  function TrackingParamsAsWritten(): seq<string> {
    ["utm_source", "utm_medium", "utm_campaign", "utm_term", "utm_content", "utm_id",
     "utm_cid", "gclid", "gclsrc", "fbclid", "dclid", "msclkid", "twclid", "mc_cid",
     "mc_eid", "yclid", "_ga", "_gl", "_hsenc", "_hsmi", "__hstc", "__hssc", "__hsfp",
     "hsCtaTracking", "ref", "ref_src", "ref_url", "source", "si"]
  }

  /** The strip list with every name in the lower case lookups use. */
  function DefaultTrackingParams(): seq<string> {
    TrackingParamsAsWritten()[..23] + ["hsctatracking"] + TrackingParamsAsWritten()[24..]
  }

  /** A query key is dropped when its lower-cased form is listed or starts with `utm_`. */
  predicate Stripped(key: string, tracking: set<string>) {
    ToLower(key) in tracking || HasPrefix(ToLower(key), "utm_")
  }

  /** As declared, the HubSpot entry is never consulted: lookups are made with the
      lower-cased key, so a `hsCtaTracking` parameter, in any letter case, survives. */
  lemma HsCtaTrackingSurvivesAsWritten(key: string)
    requires ToLower(key) == "hsctatracking"
    ensures TrackingParamsAsWritten()[23] == "hsCtaTracking"
    ensures !Stripped(key, set n | n in TrackingParamsAsWritten())
  {
    var l := TrackingParamsAsWritten();
    forall i | 0 <= i < |l| ensures l[i] != "hsctatracking" {
      if i == 23 {
        assert l[i] == "hsCtaTracking";
        assert l[i][2] == 'C';
      } else {
        assert |l[i]| != 13;
      }
    }
    assert ToLower(key)[..4] == "hsct";
  }

  /** So, with the set the package starts from, such a key reaches the cleaned query. */
  lemma HsCtaTrackingKeptAsWritten(q: map<string, seq<string>>, key: string)
    requires ToLower(key) == "hsctatracking" && key in q && q[key] != []
    ensures key in CleanQuery(q, set n | n in TrackingParamsAsWritten())
    ensures CleanQuery(q, set n | n in TrackingParamsAsWritten())[key] == q[key]
  {
    HsCtaTrackingSurvivesAsWritten(key);
  }

  /** The corrected list is the declared one with each name lower-cased; every
      name in it is already lower case, so it is stripped in any letter case. */
  lemma DefaultTrackingParamsLowered()
    ensures |DefaultTrackingParams()| == |TrackingParamsAsWritten()|
    ensures forall i | 0 <= i < |DefaultTrackingParams()| ::
      DefaultTrackingParams()[i] == ToLower(TrackingParamsAsWritten()[i])
    ensures forall i | 0 <= i < |DefaultTrackingParams()| ::
      ToLower(DefaultTrackingParams()[i]) == DefaultTrackingParams()[i]
  {
    var l := TrackingParamsAsWritten();
    var d := DefaultTrackingParams();
    forall i | 0 <= i < |d| ensures d[i] == ToLower(l[i]) && ToLower(d[i]) == d[i] {
      NameLowered(i);
    }
  }

  lemma NameLowered(i: int)
    requires 0 <= i < |TrackingParamsAsWritten()|
    ensures DefaultTrackingParams()[i] == ToLower(TrackingParamsAsWritten()[i])
    ensures ToLower(DefaultTrackingParams()[i]) == DefaultTrackingParams()[i]
  {
    var l := TrackingParamsAsWritten();
    var d := DefaultTrackingParams();
    if i == 23 {
      assert ToLower(l[i]) == d[i];
    } else {
      assert d[i] == l[i];
      DeclaredNameLower(i);
    }
    assert IsLower(d[i]);
  }

  /** Every declared name but the HubSpot one is written in lower case. */
  lemma DeclaredNameLower(i: int)
    requires 0 <= i < |TrackingParamsAsWritten()| && i != 23
    ensures IsLower(TrackingParamsAsWritten()[i])
  {
    var l := TrackingParamsAsWritten();
    if i < 8 {
      assert IsLower(l[i]);
    } else if i < 16 {
      assert IsLower(l[i]);
    } else {
      assert IsLower(l[i]);
    }
  }

  /** A listed name, written in any letter case, is stripped. */
  lemma ListedNameStripped(key: string, i: int)
    requires 0 <= i < |DefaultTrackingParams()|
    requires ToLower(key) == ToLower(DefaultTrackingParams()[i])
    ensures Stripped(key, set n | n in DefaultTrackingParams())
  {
    NameLowered(i);
  }

  /** Steps before parsing: surrounding white space removed, an empty result
      refused, `https://` supplied when no scheme separator is present. */
  function WithScheme(raw: string): (r: Result<string, CanonError>)
    ensures r.Err? <==> AllSpace(raw)
    ensures r.Err? ==> r.error == EmptyUrl
    ensures r.Ok? ==> Contains(r.value, "://")
    ensures r.Ok? ==> r.value == TrimSpace(raw) || r.value == "https://" + TrimSpace(raw)
    ensures r.Ok? && Contains(TrimSpace(raw), "://") ==> r.value == TrimSpace(raw)
  {
    var t := TrimSpace(raw);
    if t == "" then Err(EmptyUrl)
    else if Contains(t, "://") then Ok(t)
    else
      ContainsAt("https://" + t, "://", 5);
      Ok("https://" + t)
  }

  predicate IsLower(s: string) {
    forall i | 0 <= i < |s| :: LowerChar(s[i]) == s[i]
  }

  /** The lower-cased host without the port the lower-cased scheme implies. */
  function NormalizeHost(scheme: string, host: string): (r: string)
    ensures IsLower(r)
    ensures var h := ToLower(host);
      if ToLower(scheme) == "http" && HasSuffix(h, ":80") then r + ":80" == h
      else if ToLower(scheme) == "https" && HasSuffix(h, ":443") then r + ":443" == h
      else r == h
  {
    var s := ToLower(scheme);
    var h := ToLower(host);
    ToLowerIdempotent(host);
    if s == "http" && HasSuffix(h, ":80") then TrimSuffix(h, ":80")
    else if s == "https" && HasSuffix(h, ":443") then TrimSuffix(h, ":443")
    else h
  }

  /** The path rule as written: empty becomes `/`, and a longer path loses every
      trailing `/`, so a path made only of slashes becomes empty. */
  function NormalizePathAsWritten(path: string): (r: string)
    ensures path == "" ==> r == "/"
    ensures |path| == 1 ==> r == path
    ensures |path| > 1 ==> r == TrimRightChar(path, '/')
  {
    var p := if path == "" then "/" else path;
    if |p| > 1 then TrimRightChar(p, '/') else p
  }

  /** The `//` path is normalized to the empty path, whose own normal form is `/`:
      the rule as written is not idempotent. */
  lemma NormalizePathAsWrittenNotIdempotent()
    ensures NormalizePathAsWritten("//") == ""
    ensures NormalizePathAsWritten(NormalizePathAsWritten("//")) == "/"
  {
    assert TrimRightChar("//", '/') == TrimRightChar("/", '/');
  }

  /** The path rule with the root kept: a path of slashes only is the root `/`. */
  function NormalizePath(path: string): (r: string)
    ensures r != ""
    ensures r == "/" || r[|r| - 1] != '/'
    ensures r == "/" || (|r| <= |path| && r == path[..|r|] && forall i | |r| <= i < |path| :: path[i] == '/')
    ensures r == "/" <==> forall i | 0 <= i < |path| :: path[i] == '/'
  {
    var t := TrimRightChar(path, '/');
    if t == "" then "/" else t
  }

  lemma NormalizePathIdempotent(path: string)
    ensures NormalizePath(NormalizePath(path)) == NormalizePath(path)
  {
  }

  /** Where the two rules agree: everywhere except on paths of two or more slashes. */
  lemma NormalizePathAgrees(path: string)
    requires |path| <= 1 || exists i | 0 <= i < |path| :: path[i] != '/'
    ensures NormalizePath(path) == NormalizePathAsWritten(path)
  {
  }

  /** The query keys among those in `done` that the cleaning keeps, with their values. */
  function CleanOver(q: map<string, seq<string>>, done: set<string>, tracking: set<string>): (r: map<string, seq<string>>)
    ensures forall k :: k in r <==> k in q && k in done && !Stripped(k, tracking) && q[k] != []
    ensures forall k | k in r :: r[k] == q[k]
  {
    map k | k in q && k in done && !Stripped(k, tracking) && q[k] != [] :: q[k]
  }

  lemma CleanOverSkip(q: map<string, seq<string>>, done: set<string>, key: string, tracking: set<string>)
    requires key in q && (Stripped(key, tracking) || q[key] == [])
    ensures CleanOver(q, done + {key}, tracking) == CleanOver(q, done, tracking)
  {
    assert CleanOver(q, done + {key}, tracking).Keys == CleanOver(q, done, tracking).Keys;
  }

  lemma CleanOverKeep(q: map<string, seq<string>>, done: set<string>, key: string, tracking: set<string>)
    requires key in q && !Stripped(key, tracking) && q[key] != []
    ensures CleanOver(q, done + {key}, tracking) == CleanOver(q, done, tracking)[key := q[key]]
  {
    assert CleanOver(q, done + {key}, tracking).Keys == CleanOver(q, done, tracking).Keys + {key};
  }

  /** The cleaned query: every tracking parameter gone, every other one with all
      its values in their original order. */
  function CleanQuery(q: map<string, seq<string>>, tracking: set<string>): (r: map<string, seq<string>>)
    ensures forall k | k in q && Stripped(k, tracking) :: k !in r
    ensures forall k | k in q && !Stripped(k, tracking) && q[k] != [] :: k in r && r[k] == q[k]
    ensures r.Keys <= q.Keys
  {
    CleanOver(q, q.Keys, tracking)
  }

  /** Adding or replacing a tracking parameter does not change the cleaned query. */
  lemma CleanQueryIgnoresTracking(q: map<string, seq<string>>, tracking: set<string>, key: string, values: seq<string>)
    requires Stripped(key, tracking)
    ensures CleanQuery(q[key := values], tracking) == CleanQuery(q, tracking)
  {
    assert CleanQuery(q[key := values], tracking).Keys == CleanQuery(q, tracking).Keys;
  }

  /** `url.Values.Add` */
  function Add(m: map<string, seq<string>>, key: string, value: string): (r: map<string, seq<string>>)
    ensures key in r && r[key] == (if key in m then m[key] else []) + [value]
    ensures forall k | k in m && k != key :: k in r && r[k] == m[k]
    ensures r.Keys == m.Keys + {key}
  {
    m[key := (if key in m then m[key] else []) + [value]]
  }

  /** `key=value` for each value, both sides escaped by `url.QueryEscape`. */
  function PairsFor(key: string, vals: seq<string>, escape: string -> string): (r: seq<string>)
    ensures |r| == |vals|
    ensures forall j | 0 <= j < |vals| :: r[j] == escape(key) + "=" + escape(vals[j])
  {
    seq(|vals|, j requires 0 <= j < |vals| => escape(key) + "=" + escape(vals[j]))
  }

  /** The query pairs for `keys` in that order, each key's values sorted. */
  function QueryParts(keys: seq<string>, clean: map<string, seq<string>>, escape: string -> string): (r: seq<string>)
    requires forall k | k in keys :: k in clean
    decreases |keys|
  {
    if keys == [] then []
    else
      var last := keys[|keys| - 1];
      QueryParts(keys[..|keys| - 1], clean, escape) + PairsFor(last, SortStrings(clean[last]), escape)
  }

  lemma PairsForSnoc(key: string, vals: seq<string>, j: int, escape: string -> string)
    requires 0 <= j < |vals|
    ensures PairsFor(key, vals[..j + 1], escape) == PairsFor(key, vals[..j], escape) + [escape(key) + "=" + escape(vals[j])]
  {
  }

  lemma QueryPartsSnoc(keys: seq<string>, i: int, clean: map<string, seq<string>>, escape: string -> string)
    requires 0 <= i < |keys|
    requires forall k | k in keys :: k in clean
    ensures QueryParts(keys[..i + 1], clean, escape)
         == QueryParts(keys[..i], clean, escape) + PairsFor(keys[i], SortStrings(clean[keys[i]]), escape)
  {
    assert keys[..i + 1][..i] == keys[..i];
  }

  /** One pair per value of every kept key. */
  lemma {:induction false} QueryPartsCount(keys: seq<string>, clean: map<string, seq<string>>, escape: string -> string)
    requires forall k | k in keys :: k in clean && clean[k] != []
    ensures |QueryParts(keys, clean, escape)| >= |keys|
    decreases |keys|
  {
    if keys != [] {
      QueryPartsCount(keys[..|keys| - 1], clean, escape);
    }
  }

  /** The serialized query: pairs for the kept keys in increasing key order. */
  ghost function RawQuery(clean: map<string, seq<string>>, escape: string -> string): string {
    if |clean| == 0 then ""
    else
      var keys := SortedElements(clean.Keys);
      Join(QueryParts(keys, clean, escape), "&")
  }

  function SchemePrefix(scheme: string): string {
    if scheme == "" then "" else scheme + ":"
  }

  /** What `URL.String()` writes before the query: `scheme:` only when there is a
      scheme; `//` and the host only when there is a scheme or a host, and a host
      or a path; a `/` before a path that is not rooted under a host; the path. */
  function UrlHead(scheme: string, host: string, path: string): (r: string)
    ensures host != "" ==> HasPrefix(r, SchemePrefix(scheme) + "//" + host)
    ensures host != "" && (path == "" || path[0] == '/') ==> r == SchemePrefix(scheme) + "//" + host + path
    ensures host != "" && path != "" && path[0] != '/' ==> r == SchemePrefix(scheme) + "//" + host + "/" + path
    ensures scheme != "" && host == "" ==> r == scheme + ":" + (if path == "" then "" else "//" + path)
    ensures scheme == "" && host == "" ==> r == path
  {
    var authority := if (scheme != "" || host != "") && (host != "" || path != "") then "//" + host else "";
    var slash := if path != "" && path[0] != '/' && host != "" then "/" else "";
    SchemePrefix(scheme) + authority + slash + path
  }

  /** What `URL.String()` writes for the normalized parts: the head, then `?` and
      the query when one is present or forced. */
  function Serialize(scheme: string, host: string, path: string, forceQuery: bool, rawQuery: string): (r: string)
    ensures HasPrefix(r, UrlHead(scheme, host, path))
    ensures forceQuery || rawQuery != "" <==> |r| > |UrlHead(scheme, host, path)|
    ensures |r| > |UrlHead(scheme, host, path)| ==> r[|UrlHead(scheme, host, path)|..] == "?" + rawQuery
  {
    UrlHead(scheme, host, path) + (if forceQuery || rawQuery != "" then "?" + rawQuery else "")
  }

  type Sha256Digest = d: seq<int> | |d| == 32 && forall i | 0 <= i < |d| :: 0 <= d[i] < 256
    witness seq(32, (i: int) => 0)

  predicate IsHexDigit(c: char) {
    '0' <= c <= '9' || 'a' <= c <= 'f'
  }

  function HexDigit(v: int): (c: char)
    requires 0 <= v < 16
    ensures IsHexDigit(c)
  {
    if v < 10 then ('0' as int + v) as char else ('a' as int + v - 10) as char
  }

  /** `fmt.Sprintf("%x", d)`: two lower-case hex digits per byte. */
  function Hex(d: seq<int>): (r: string)
    requires forall i | 0 <= i < |d| :: 0 <= d[i] < 256
    ensures |r| == 2 * |d|
    ensures forall i | 0 <= i < |r| :: IsHexDigit(r[i])
    decreases |d|
  {
    if d == [] then ""
    else [HexDigit(d[0] / 16), HexDigit(d[0] % 16)] + Hex(d[1..])
  }

  function HexValue(c: char): (v: int)
    ensures 0 <= v < 16
  {
    if '0' <= c <= '9' then c as int - '0' as int
    else if 'a' <= c <= 'f' then c as int - 'a' as int + 10
    else 0
  }

  lemma HexValueDigit(v: int)
    requires 0 <= v < 16
    ensures HexValue(HexDigit(v)) == v
  {
  }

  function UnHex(s: string): seq<int>
    decreases |s|
  {
    if |s| < 2 then [] else [HexValue(s[0]) * 16 + HexValue(s[1])] + UnHex(s[2..])
  }

  lemma {:induction false} UnHexHex(d: seq<int>)
    requires forall i | 0 <= i < |d| :: 0 <= d[i] < 256
    ensures UnHex(Hex(d)) == d
    decreases |d|
  {
    if d != [] {
      var h := Hex(d);
      assert h[0] == HexDigit(d[0] / 16) && h[1] == HexDigit(d[0] % 16);
      assert h[2..] == Hex(d[1..]);
      HexValueDigit(d[0] / 16);
      HexValueDigit(d[0] % 16);
      UnHexHex(d[1..]);
      assert d == [d[0]] + d[1..];
    }
  }

  /** The hex hash of a canonical URL is 64 digits and determines the digest. */
  lemma HashShape(d: Sha256Digest)
    ensures |Hex(d)| == 64 && UnHex(Hex(d)) == d
  {
    UnHexHex(d);
  }

  /** Everything after a successful parse. */
  ghost function FromParsed(u: Url, tracking: set<string>, escape: string -> string,
                            sha256: string -> Sha256Digest): (r: Result<Canonical, CanonError>)
    ensures r.Err? <==> u.host == ""
    ensures r.Err? ==> r.error == NoHost
    ensures r.Ok? ==> r.value.hash == Hex(sha256(r.value.url))
    ensures r.Ok? ==> HasPrefix(r.value.url, UrlHead(ToLower(u.scheme), NormalizeHost(u.scheme, u.host), NormalizePathAsWritten(u.path)))
  {
    if u.host == "" then Err(NoHost)
    else
      var url := Serialize(ToLower(u.scheme), NormalizeHost(u.scheme, u.host), NormalizePathAsWritten(u.path),
                           u.forceQuery, RawQuery(CleanQuery(u.query, tracking), escape));
      Ok(Canonical(url, Hex(sha256(url))))
  }

  /** A URL parsed without a scheme, such as `//example.com/a?next=https://b.com`
      (which already holds `://`, so no `https://` is supplied), is written as a
      network-path reference: `//` and the host, with no `:` in front. */
  lemma NoSchemeGivesNetworkPath(u: Url, tracking: set<string>, escape: string -> string,
                                 sha256: string -> Sha256Digest)
    requires u.scheme == "" && u.host != ""
    ensures FromParsed(u, tracking, escape, sha256).Ok?
    ensures HasPrefix(FromParsed(u, tracking, escape, sha256).value.url, "//" + ToLower(u.host))
  {
    assert |ToLower(u.host)| == |u.host|;
  }

  /** As written, normalizing is not stable under re-normalizing the path: a host
      with path `//` yields a different canonical URL from the same host with the
      path that normalization produced for it. */
  lemma FromParsedPathUnstable(u: Url, tracking: set<string>, escape: string -> string,
                               sha256: string -> Sha256Digest)
    requires u.host != "" && u.path == "//"
    ensures FromParsed(u.(path := NormalizePathAsWritten(u.path)), tracking, escape, sha256)
         != FromParsed(u, tracking, escape, sha256)
  {
    NormalizePathAsWrittenNotIdempotent();
    var a := FromParsed(u, tracking, escape, sha256);
    var b := FromParsed(u.(path := ""), tracking, escape, sha256);
    var scheme, host := ToLower(u.scheme), NormalizeHost(u.scheme, u.host);
    assert |UrlHead(scheme, host, "/")| > |UrlHead(scheme, host, "")|;
    assert |b.value.url| > |a.value.url|;
  }

  /** Everything after a successful parse, with the corrected path rule. */
  ghost function FromParsedCorrected(u: Url, tracking: set<string>, escape: string -> string,
                                     sha256: string -> Sha256Digest): (r: Result<Canonical, CanonError>)
    ensures r.Err? <==> u.host == ""
    ensures r.Ok? ==> r.value.hash == Hex(sha256(r.value.url))
    ensures r.Ok? ==> HasPrefix(r.value.url, UrlHead(ToLower(u.scheme), NormalizeHost(u.scheme, u.host), NormalizePath(u.path)))
  {
    if u.host == "" then Err(NoHost)
    else
      var url := Serialize(ToLower(u.scheme), NormalizeHost(u.scheme, u.host), NormalizePath(u.path),
                           u.forceQuery, RawQuery(CleanQuery(u.query, tracking), escape));
      Ok(Canonical(url, Hex(sha256(url))))
  }

  /** With the corrected rule, re-normalizing the path changes nothing, and the
      result agrees with the code wherever the path is not two or more slashes. */
  lemma FromParsedCorrectedPathStable(u: Url, tracking: set<string>, escape: string -> string,
                                      sha256: string -> Sha256Digest)
    ensures FromParsedCorrected(u.(path := NormalizePath(u.path)), tracking, escape, sha256)
         == FromParsedCorrected(u, tracking, escape, sha256)
    ensures (|u.path| <= 1 || exists i | 0 <= i < |u.path| :: u.path[i] != '/') ==>
      FromParsedCorrected(u, tracking, escape, sha256) == FromParsed(u, tracking, escape, sha256)
  {
    NormalizePathIdempotent(u.path);
    if |u.path| <= 1 || exists i | 0 <= i < |u.path| :: u.path[i] != '/' {
      NormalizePathAgrees(u.path);
    }
  }

  /** The whole canonicalization of a raw URL. */
  ghost function CanonicalizeSpec(raw: string, tracking: set<string>, parse: string -> Result<Url, string>,
                                  escape: string -> string, sha256: string -> Sha256Digest): (r: Result<Canonical, CanonError>)
    ensures AllSpace(raw) <==> r == Err(EmptyUrl)
    ensures !AllSpace(raw) && !Contains(TrimSpace(raw), "://") ==>
      r == (match parse("https://" + TrimSpace(raw))
            case Err(reason) => Err(ParseFailed(reason))
            case Ok(u) => FromParsed(u, tracking, escape, sha256))
  {
    match WithScheme(raw)
    case Err(e) => Err(e)
    case Ok(s) =>
      match parse(s)
      case Err(reason) => Err(ParseFailed(reason))
      case Ok(u) => FromParsed(u, tracking, escape, sha256)
  }

  /** The fragment never reaches the canonical form. */
  lemma FragmentIgnored(u: Url, fragment: string, tracking: set<string>, escape: string -> string, sha256: string -> Sha256Digest)
    ensures FromParsed(u.(fragment := fragment), tracking, escape, sha256) == FromParsed(u, tracking, escape, sha256)
  {
  }

  /** Scheme and host are compared without regard to ASCII letter case. */
  lemma CaseInsensitiveSchemeAndHost(u: Url, v: Url, tracking: set<string>, escape: string -> string, sha256: string -> Sha256Digest)
    requires ToLower(u.scheme) == ToLower(v.scheme) && ToLower(u.host) == ToLower(v.host)
    requires u.path == v.path && u.forceQuery == v.forceQuery && u.query == v.query
    ensures FromParsed(u, tracking, escape, sha256) == FromParsed(v, tracking, escape, sha256)
  {
    assert u.host == "" <==> v.host == "";
  }

  /** A tracking parameter may be added to or removed from a URL without changing it. */
  lemma TrackingParamIgnored(u: Url, key: string, values: seq<string>, tracking: set<string>,
                             escape: string -> string, sha256: string -> Sha256Digest)
    requires Stripped(key, tracking)
    ensures FromParsed(u.(query := u.query[key := values]), tracking, escape, sha256)
         == FromParsed(u, tracking, escape, sha256)
  {
    CleanQueryIgnoresTracking(u.query, tracking, key, values);
  }

  /** The `://` already present is respected: a URL that carries it is parsed as it stands. */
  lemma SchemeKept(raw: string, tracking: set<string>, parse: string -> Result<Url, string>,
                   escape: string -> string, sha256: string -> Sha256Digest)
    requires Contains(TrimSpace(raw), "://")
    ensures CanonicalizeSpec(raw, tracking, parse, escape, sha256)
         == match parse(TrimSpace(raw))
            case Err(reason) => Err(ParseFailed(reason))
            case Ok(u) => FromParsed(u, tracking, escape, sha256)
  {
    assert TrimSpace(raw) != "";
  }

  /** The process-wide strip list, kept under a lock in the package. */
  class TrackingParams {
    var names: set<string>

    constructor()
      ensures names == set n | n in TrackingParamsAsWritten()
    {
      names := set n | n in TrackingParamsAsWritten();
    }

    method AddTrackingParams(params: seq<string>)
      modifies this
      ensures names == old(names) + set p | p in params :: ToLower(p)
    {
      for i := 0 to |params|
        invariant names == old(names) + set p | p in params[..i] :: ToLower(p)
      {
        assert params[..i + 1] == params[..i] + [params[i]];
        names := names + {ToLower(params[i])};
      }
      assert params[..|params|] == params;
    }

    method Canonicalize(rawURL: string, parse: string -> Result<Url, string>,
                        escape: string -> string, sha256: string -> Sha256Digest)
      returns (r: Result<Canonical, CanonError>)
      ensures r == CanonicalizeSpec(rawURL, names, parse, escape, sha256)
    {
      var raw := TrimSpace(rawURL);
      if raw == "" {
        return Err(EmptyUrl);
      }
      if !Contains(raw, "://") {
        raw := "https://" + raw;
      }
      var parsed := parse(raw);
      if parsed.Err? {
        return Err(ParseFailed(parsed.error));
      }
      r := FromParsedUrl(parsed.value, escape, sha256);
    }

    /** Normalization and serialization of a parsed URL. */
    method FromParsedUrl(u: Url, escape: string -> string, sha256: string -> Sha256Digest)
      returns (r: Result<Canonical, CanonError>)
      ensures r == FromParsed(u, names, escape, sha256)
    {
      if u.host == "" {
        return Err(NoHost);
      }
      var scheme := ToLower(u.scheme);
      var host := HostOf(scheme, u.host);
      var path := u.path;
      if path == "" {
        path := "/";
      }
      if |path| > 1 {
        path := TrimRightChar(path, '/');
      }
      assert path == NormalizePathAsWritten(u.path);
      var cleanQuery := CleanQueryLoop(u.query);
      var rawQuery := RawQueryOf(cleanQuery, escape);
      var canonical := Serialize(scheme, host, path, u.forceQuery, rawQuery);
      return Ok(Canonical(canonical, Hex(sha256(canonical))));
    }

    /** Copies every value of every key that is not a tracking parameter. */
    method CleanQueryLoop(query: map<string, seq<string>>) returns (cleanQuery: map<string, seq<string>>)
      ensures cleanQuery == CleanQuery(query, names)
    {
      cleanQuery := map[];
      var remaining := query.Keys;
      ghost var done: set<string> := {};
      while remaining != {}
        invariant remaining <= query.Keys && done == query.Keys - remaining
        invariant cleanQuery == CleanOver(query, done, names)
        decreases |remaining|
      {
        var key :| key in remaining;
        remaining := remaining - {key};
        var lowerKey := ToLower(key);
        if lowerKey in names || HasPrefix(lowerKey, "utm_") {
          CleanOverSkip(query, done, key, names);
        } else {
          var values := query[key];
          cleanQuery := AddAll(cleanQuery, key, values);
          if values == [] {
            CleanOverSkip(query, done, key, names);
          } else {
            CleanOverKeep(query, done, key, names);
          }
        }
        done := done + {key};
      }
    }
  }

  /** The host steps of `Canonicalize`: lower-cased, default port dropped. */
  method HostOf(scheme: string, rawHost: string) returns (host: string)
    requires scheme == ToLower(scheme)
    ensures host == NormalizeHost(scheme, rawHost)
  {
    host := ToLower(rawHost);
    if HasSuffix(host, ":80") && scheme == "http" {
      host := TrimSuffix(host, ":80");
    }
    if HasSuffix(host, ":443") && scheme == "https" {
      host := TrimSuffix(host, ":443");
    }
    ToLowerIdempotent(scheme);
  }

  /** The query steps of `Canonicalize`: sorted keys, escaped pairs, joined by `&`. */
  method RawQueryOf(cleanQuery: map<string, seq<string>>, escape: string -> string) returns (rawQuery: string)
    ensures rawQuery == RawQuery(cleanQuery, escape)
  {
    rawQuery := "";
    if |cleanQuery| > 0 {
      var keys := SortedKeys(cleanQuery);
      var qParts := Parts(keys, cleanQuery, escape);
      rawQuery := Join(qParts, "&");
    }
  }

  /** `Add(key, v)` for every value in turn, onto a map without `key`. */
  method AddAll(m: map<string, seq<string>>, key: string, values: seq<string>) returns (r: map<string, seq<string>>)
    requires key !in m
    ensures r == if values == [] then m else m[key := values]
  {
    r := m;
    for j := 0 to |values|
      invariant j == 0 ==> r == m
      invariant j > 0 ==> r == m[key := values[..j]]
    {
      assert values[..j + 1] == values[..j] + [values[j]];
      r := Add(r, key, values[j]);
    }
    assert values[..|values|] == values;
  }

  /** The keys of the cleaned query gathered in any order, then sorted. */
  method SortedKeys(clean: map<string, seq<string>>) returns (keys: seq<string>)
    ensures keys == SortedElements(clean.Keys)
  {
    keys := [];
    var rest := clean.Keys;
    while rest != {}
      invariant rest <= clean.Keys
      invariant NoDup(keys)
      invariant forall x :: x in keys <==> x in clean && x !in rest
      decreases |rest|
    {
      var k :| k in rest;
      keys := keys + [k];
      rest := rest - {k};
    }
    var target := SortedElements(clean.Keys);
    SameElementsSameMultiset(keys, target);
    keys := SortStrings(keys);
    SortedUnique(keys, target);
  }

  /** The escaped `key=value` pairs, key by key, each key's values sorted. */
  method Parts(keys: seq<string>, clean: map<string, seq<string>>, escape: string -> string) returns (qParts: seq<string>)
    requires forall k | k in keys :: k in clean
    ensures qParts == QueryParts(keys, clean, escape)
  {
    qParts := [];
    for i := 0 to |keys|
      invariant qParts == QueryParts(keys[..i], clean, escape)
    {
      var k := keys[i];
      var vals := SortStrings(clean[k]);
      ghost var before := qParts;
      for j := 0 to |vals|
        invariant qParts == before + PairsFor(k, vals[..j], escape)
      {
        PairsForSnoc(k, vals, j, escape);
        qParts := qParts + [escape(k) + "=" + escape(vals[j])];
      }
      assert vals[..|vals|] == vals;
      QueryPartsSnoc(keys, i, clean, escape);
    }
    assert keys[..|keys|] == keys;
  }
}
