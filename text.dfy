/** Models of the Go `strings` and `strconv` helpers the services call.
    Go strings are byte strings; here a string is a sequence of characters,
    which agrees with Go wherever the text is ASCII. */
module Text {
  import opened Wrappers

  /** Go's `unicode.IsSpace`: the ASCII white-space characters, U+0085, U+00A0
      and the Unicode space separators. */
  predicate IsSpace(c: char) {
    var n := c as int;
    n == 0x20 || 0x09 <= n <= 0x0D || n == 0x85 || n == 0xA0 || n == 0x1680
    || 0x2000 <= n <= 0x200A || n == 0x2028 || n == 0x2029 || n == 0x202F
    || n == 0x205F || n == 0x3000
  }

  predicate AllSpace(s: string) {
    forall i | 0 <= i < |s| :: IsSpace(s[i])
  }

  function TrimLeftSpace(s: string): (r: string)
    ensures |r| <= |s| && r == s[|s| - |r|..]
    ensures r == "" || !IsSpace(r[0])
    ensures r == "" <==> AllSpace(s)
  {
    if |s| > 0 && IsSpace(s[0]) then TrimLeftSpace(s[1..]) else s
  }

  function TrimRightSpace(s: string): (r: string)
    ensures |r| <= |s| && r == s[..|r|]
    ensures r == "" || !IsSpace(r[|r| - 1])
    ensures r == "" <==> AllSpace(s)
  {
    if |s| > 0 && IsSpace(s[|s| - 1]) then TrimRightSpace(s[..|s| - 1]) else s
  }

  /** `strings.TrimSpace`: the result is empty exactly for an all-blank input,
      and otherwise neither starts nor ends with white space. */
  function TrimSpace(s: string): (r: string)
    ensures r == "" || (!IsSpace(r[0]) && !IsSpace(r[|r| - 1]))
    ensures r == "" <==> AllSpace(s)
  {
    var l := TrimLeftSpace(s);
    var r := TrimRightSpace(l);
    assert r != "" ==> r[0] == l[0];
    r
  }

  /** ASCII case folding; `strings.ToLower` also folds non-ASCII letters. */
  function LowerChar(c: char): char {
    if 'A' <= c <= 'Z' then (c as int + 32) as char else c
  }

  function ToLower(s: string): (r: string)
    ensures |r| == |s|
    ensures forall i | 0 <= i < |s| :: r[i] == LowerChar(s[i])
  {
    seq(|s|, i requires 0 <= i < |s| => LowerChar(s[i]))
  }

  lemma ToLowerIdempotent(s: string)
    ensures ToLower(ToLower(s)) == ToLower(s)
  {
  }

  predicate HasPrefix(s: string, p: string) {
    |p| <= |s| && s[..|p|] == p
  }

  predicate HasSuffix(s: string, p: string) {
    |p| <= |s| && s[|s| - |p|..] == p
  }

  /** `strings.TrimSuffix` */
  function TrimSuffix(s: string, p: string): (r: string)
    ensures HasSuffix(s, p) ==> r + p == s
    ensures !HasSuffix(s, p) ==> r == s
  {
    if HasSuffix(s, p) then s[..|s| - |p|] else s
  }

  /** `strings.TrimRight(s, [c])`: every trailing `c` removed. */
  function TrimRightChar(s: string, c: char): (r: string)
    ensures |r| <= |s| && r == s[..|r|]
    ensures r == "" || r[|r| - 1] != c
    ensures forall i | |r| <= i < |s| :: s[i] == c
  {
    if |s| > 0 && s[|s| - 1] == c then TrimRightChar(s[..|s| - 1], c) else s
  }

  /** `strings.Contains`: `sub` occurs somewhere in `s`. */
  predicate Contains(s: string, sub: string)
    decreases |s|
  {
    HasPrefix(s, sub) || (|s| > 0 && Contains(s[1..], sub))
  }

  lemma {:induction false} ContainsAt(s: string, sub: string, i: nat)
    requires i + |sub| <= |s| && s[i..i + |sub|] == sub
    ensures Contains(s, sub)
    decreases i
  {
    if i > 0 {
      assert s[1..][i - 1..i - 1 + |sub|] == s[i..i + |sub|];
      ContainsAt(s[1..], sub, i - 1);
    }
  }

  lemma {:induction false} ContainsWitness(s: string, sub: string) returns (i: nat)
    requires Contains(s, sub)
    ensures i + |sub| <= |s| && s[i..i + |sub|] == sub
    decreases |s|
  {
    if HasPrefix(s, sub) {
      i := 0;
    } else {
      var j := ContainsWitness(s[1..], sub);
      assert s[1..][j..j + |sub|] == s[j + 1..j + 1 + |sub|];
      i := j + 1;
    }
  }

  /** `strings.Join` */
  function Join(parts: seq<string>, sep: string): string
    decreases |parts|
  {
    if |parts| == 0 then ""
    else if |parts| == 1 then parts[0]
    else parts[0] + sep + Join(parts[1..], sep)
  }

  /** `strings.Split`: with an empty separator, one piece per character; otherwise
      the pieces between successive non-overlapping occurrences of `sep`, found
      left to right. */
  function Split(s: string, sep: string): (r: seq<string>)
    ensures sep != "" ==> |r| >= 1
  {
    if sep == "" then seq(|s|, i requires 0 <= i < |s| => [s[i]])
    else SplitFrom(s, sep, "")
  }

  /** `cur` is the part of the current piece already scanned. */
  function SplitFrom(s: string, sep: string, cur: string): (r: seq<string>)
    requires sep != ""
    ensures |r| >= 1
    decreases |s|
  {
    if HasPrefix(s, sep) then [cur] + SplitFrom(s[|sep|..], sep, "")
    else if |s| == 0 then [cur]
    else SplitFrom(s[1..], sep, cur + [s[0]])
  }

  lemma {:induction false} JoinSplitFrom(s: string, sep: string, cur: string)
    requires sep != ""
    ensures Join(SplitFrom(s, sep, cur), sep) == cur + s
    decreases |s|
  {
    if HasPrefix(s, sep) {
      var rest := SplitFrom(s[|sep|..], sep, "");
      JoinSplitFrom(s[|sep|..], sep, "");
      assert [cur] + rest == SplitFrom(s, sep, cur);
      assert ([cur] + rest)[1..] == rest;
      assert s == sep + s[|sep|..];
    } else if |s| == 0 {
    } else {
      JoinSplitFrom(s[1..], sep, cur + [s[0]]);
      assert s == [s[0]] + s[1..];
    }
  }

  lemma {:induction false} JoinExplode(s: string)
    ensures Join(Split(s, ""), "") == s
    decreases |s|
  {
    if |s| > 1 {
      JoinExplode(s[1..]);
      assert Split(s, "")[1..] == Split(s[1..], "");
      assert s == [s[0]] + s[1..];
    }
  }

  /** Splitting and joining with the same separator give back the input. */
  lemma JoinSplit(s: string, sep: string)
    ensures Join(Split(s, sep), sep) == s
  {
    if sep == "" {
      JoinExplode(s);
    } else {
      JoinSplitFrom(s, sep, "");
    }
  }

  // ---- decimal integers (strconv.Itoa / strconv.Atoi) ----

  const MinInt64: int := -0x8000_0000_0000_0000
  const MaxInt64: int := 0x7FFF_FFFF_FFFF_FFFF

  /** A Go `int64`. */
  type int64 = n: int | MinInt64 <= n <= MaxInt64

  /** Go's `int64` addition: the sum taken modulo 2^64 into the signed range. */
  function AddInt64(a: int64, b: int64): (r: int64)
    ensures MinInt64 <= a + b <= MaxInt64 ==> r == a + b
    ensures (a + b - r) % 0x1_0000_0000_0000_0000 == 0
  {
    var s := a + b;
    if s > MaxInt64 then s - 0x1_0000_0000_0000_0000
    else if s < MinInt64 then s + 0x1_0000_0000_0000_0000
    else s
  }

  predicate IsDigit(c: char) {
    '0' <= c <= '9'
  }

  predicate AllDigits(s: string) {
    forall i | 0 <= i < |s| :: IsDigit(s[i])
  }

  function DigitChar(d: int): (c: char)
    requires 0 <= d < 10
    ensures IsDigit(c)
  {
    ('0' as int + d) as char
  }

  function NatToString(n: nat): (r: string)
    ensures |r| >= 1 && AllDigits(r)
    decreases n
  {
    if n < 10 then [DigitChar(n)] else NatToString(n / 10) + [DigitChar(n % 10)]
  }

  /** `strconv.Itoa` */
  function IntToString(n: int): string {
    if n < 0 then "-" + NatToString(-n) else NatToString(n)
  }

  function DigitsValue(s: string): nat
    requires AllDigits(s)
    decreases |s|
  {
    if s == [] then 0
    else DigitsValue(s[..|s| - 1]) * 10 + (s[|s| - 1] as int - '0' as int)
  }

  /** `strconv.Atoi`: an optional sign, at least one decimal digit, and a value
      that fits in 64 bits; anything else is a syntax or range error. */
  function ParseInt(s: string): Option<int> {
    if |s| == 0 then None
    else
      var negative := s[0] == '-';
      var digits := if s[0] == '+' || s[0] == '-' then s[1..] else s;
      if |digits| == 0 || !AllDigits(digits) then None
      else
        var mag: int := DigitsValue(digits);
        var v := if negative then -mag else mag;
        if MinInt64 <= v <= MaxInt64 then Some(v) else None
  }

  lemma {:induction false} DigitsValueOfNat(n: nat)
    ensures DigitsValue(NatToString(n)) == n
    decreases n
  {
    if n >= 10 {
      DigitsValueOfNat(n / 10);
      var s := NatToString(n);
      assert s[..|s| - 1] == NatToString(n / 10);
    }
  }

  /** `Atoi` reads back every 64-bit integer `Itoa` writes. */
  lemma ParseIntToString(n: int)
    requires MinInt64 <= n <= MaxInt64
    ensures ParseInt(IntToString(n)) == Some(n)
  {
    var s := IntToString(n);
    if n < 0 {
      DigitsValueOfNat(-n);
      assert s[0] == '-' && s[1..] == NatToString(-n);
      assert ParseInt(s) == Some(0 - DigitsValue(NatToString(-n)) as int);
    } else {
      DigitsValueOfNat(n);
      assert IsDigit(s[0]);
      assert ParseInt(s) == Some(DigitsValue(s));
    }
  }
}
