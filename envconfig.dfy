/** Environment-variable helpers (package `envconfig`) over a given environment. */
module EnvConfig {
  import opened Wrappers
  import opened Text

  /** The process environment: the variables that are set, with their values. */
  type Env = map<string, string>

  /** `os.Getenv`: the value, or "" when unset. */
  function Getenv(env: Env, key: string): string {
    if key in env then env[key] else ""
  }

  /** `Required`: fails exactly when the variable is unset; a set but empty
      value is returned as it is. */
  function Required(env: Env, key: string): (r: Result<string, string>)
    ensures r.Err? <==> key !in env
    ensures r.Ok? ==> r.value == env[key]
    ensures r.Err? ==> r.error == key + " environment variable is required"
  {
    if key in env then Ok(env[key]) else Err(key + " environment variable is required")
  }

  /** `Optional`: the value when it is set and non-empty, else the default. */
  function Optional(env: Env, key: string, defaultValue: string): (r: string)
    ensures key in env && env[key] != "" ==> r == env[key]
    ensures key !in env || env[key] == "" ==> r == defaultValue
  {
    var v := Getenv(env, key);
    if v != "" then v else defaultValue
  }

  /** `OptionalBool`: `true`/`1`/`yes` and `false`/`0`/`no` in any ASCII letter
      case; anything else, or nothing, gives the default. */
  function OptionalBool(env: Env, key: string, defaultValue: bool): (r: bool)
    ensures var v := ToLower(Getenv(env, key));
      (v in {"true", "1", "yes"} ==> r) && (v in {"false", "0", "no"} ==> !r)
      && (v !in {"true", "1", "yes", "false", "0", "no"} ==> r == defaultValue)
  {
    var v := Getenv(env, key);
    if v == "" then defaultValue
    else
      var l := ToLower(v);
      if l == "true" || l == "1" || l == "yes" then true
      else if l == "false" || l == "0" || l == "no" then false
      else defaultValue
  }

  lemma OptionalBoolCaseInsensitive(env: Env, key: string, defaultValue: bool)
    requires Getenv(env, key) == "TRUE" || Getenv(env, key) == "Yes"
    ensures OptionalBool(env, key, defaultValue)
  {
    assert ToLower("TRUE") == "true";
    assert ToLower("Yes") == "yes";
  }

  /** `OptionalInt`: the value read by `strconv.Atoi`, or the default when it is
      unset, empty or not a 64-bit decimal integer. */
  function OptionalInt(env: Env, key: string, defaultValue: int): (r: int)
    ensures ParseInt(Getenv(env, key)).Some? ==> r == ParseInt(Getenv(env, key)).value
    ensures ParseInt(Getenv(env, key)).None? ==> r == defaultValue
  {
    var v := Getenv(env, key);
    if v == "" then defaultValue
    else match ParseInt(v)
      case None => defaultValue
      case Some(n) => n
  }

  /** Any 64-bit integer written in decimal is read back. */
  lemma OptionalIntReadsItoa(env: Env, key: string, n: int, defaultValue: int)
    requires MinInt64 <= n <= MaxInt64
    requires key in env && env[key] == IntToString(n)
    ensures OptionalInt(env, key, defaultValue) == n
  {
    ParseIntToString(n);
  }

  /** The parts, trimmed, with the blank ones dropped, in input order. */
  function TrimmedNonBlank(parts: seq<string>): (r: seq<string>)
    ensures |r| <= |parts|
    decreases |parts|
  {
    if parts == [] then []
    else
      var rest := TrimmedNonBlank(parts[..|parts| - 1]);
      var t := TrimSpace(parts[|parts| - 1]);
      if t == "" then rest else rest + [t]
  }

  /** Appending a part appends its trimmed form unless that is empty. */
  lemma TrimmedNonBlankSnoc(parts: seq<string>, p: string)
    ensures TrimmedNonBlank(parts + [p])
         == if TrimSpace(p) == "" then TrimmedNonBlank(parts) else TrimmedNonBlank(parts) + [TrimSpace(p)]
  {
    assert (parts + [p])[..|parts|] == parts;
  }

  /** `x` is the trimmed form of one of `parts` and, as such, non-empty and trimmed. */
  predicate TrimmedPart(x: string, parts: seq<string>) {
    x != "" && !IsSpace(x[0]) && !IsSpace(x[|x| - 1]) && exists p | p in parts :: x == TrimSpace(p)
  }

  /** The same step on a prefix of the parts. */
  lemma TrimmedNonBlankStep(parts: seq<string>, i: int)
    requires 0 <= i < |parts|
    ensures TrimmedNonBlank(parts[..i + 1])
         == if TrimSpace(parts[i]) == "" then TrimmedNonBlank(parts[..i])
            else TrimmedNonBlank(parts[..i]) + [TrimSpace(parts[i])]
  {
    assert parts[..i + 1] == parts[..i] + [parts[i]];
    TrimmedNonBlankSnoc(parts[..i], parts[i]);
  }

  /** Every element kept is non-empty, trimmed, and the trimmed form of a part. */
  lemma {:induction false} TrimmedNonBlankElements(parts: seq<string>)
    ensures forall x | x in TrimmedNonBlank(parts) :: TrimmedPart(x, parts)
    decreases |parts|
  {
    if parts != [] {
      var init := parts[..|parts| - 1];
      var last := parts[|parts| - 1];
      assert parts == init + [last];
      TrimmedNonBlankElements(init);
      TrimmedNonBlankSnoc(init, last);
      forall x | x in TrimmedNonBlank(parts) ensures TrimmedPart(x, parts) {
        TrimmedPartSnoc(x, init, last);
      }
    }
  }

  lemma TrimmedPartSnoc(x: string, init: seq<string>, last: string)
    requires TrimmedPart(x, init) || (x == TrimSpace(last) && x != "")
    ensures TrimmedPart(x, init + [last])
  {
    if TrimmedPart(x, init) {
      var p :| p in init && x == TrimSpace(p);
      assert p in init + [last];
    } else {
      assert last in init + [last];
    }
  }

  /** Nothing is dropped but blank parts: all parts blank leaves nothing. */
  lemma {:induction false} TrimmedNonBlankEmpty(parts: seq<string>)
    ensures TrimmedNonBlank(parts) == [] <==> forall p | p in parts :: AllSpace(p)
    decreases |parts|
  {
    if parts != [] {
      var init := parts[..|parts| - 1];
      TrimmedNonBlankEmpty(init);
      assert parts == init + [parts[|parts| - 1]];
    }
  }

  /** The value `OptionalStringSlice` returns. */
  function StringSliceValue(env: Env, key: string, separator: string, defaultValue: seq<string>): seq<string> {
    var v := Getenv(env, key);
    if v == "" then defaultValue
    else
      var t := TrimmedNonBlank(Split(v, separator));
      if t == [] then defaultValue else t
  }

  /** `OptionalStringSlice`: split on the separator, trim each part, drop the
      empty ones; the default when nothing is left. */
  method OptionalStringSlice(env: Env, key: string, separator: string, defaultValue: seq<string>)
    returns (result: seq<string>)
    ensures result == StringSliceValue(env, key, separator, defaultValue)
  {
    var v := Getenv(env, key);
    if v == "" {
      return defaultValue;
    }
    result := TrimAll(Split(v, separator));
    if |result| == 0 {
      return defaultValue;
    }
  }

  /** The trimming loop of `OptionalStringSlice`. */
  method TrimAll(parts: seq<string>) returns (result: seq<string>)
    ensures result == TrimmedNonBlank(parts)
  {
    result := [];
    for i := 0 to |parts|
      invariant result == TrimmedNonBlank(parts[..i])
    {
      TrimmedNonBlankStep(parts, i);
      var trimmed := TrimSpace(parts[i]);
      if trimmed != "" {
        result := result + [trimmed];
      }
    }
    assert parts[..|parts|] == parts;
  }

  /** With a variable set, the default comes back only when every part is blank. */
  lemma StringSliceDefault(env: Env, key: string, separator: string, defaultValue: seq<string>)
    requires Getenv(env, key) != ""
    ensures var parts := Split(Getenv(env, key), separator);
      StringSliceValue(env, key, separator, defaultValue)
        == if forall p | p in parts :: AllSpace(p) then defaultValue else TrimmedNonBlank(parts)
  {
    TrimmedNonBlankEmpty(Split(Getenv(env, key), separator));
  }
}
