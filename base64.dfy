/** Base 64 with the URL- and filename-safe alphabet of section 5 of RFC 4648,
    padded as in section 4 (Go's `base64.URLEncoding`) or unpadded (Go's
    `base64.RawURLEncoding`). Decoding follows Go's non-strict decoder: line
    breaks are skipped and unused trailing bits are ignored. */
module Base64 {
  import opened Wrappers

  type byte = b: int | 0 <= b < 256
  type sextet = v: int | 0 <= v < 64

  const PadChar: char := '='

  /** The alphabet: A-Z, a-z, 0-9, '-' and '_'. */
  function UrlChar(v: sextet): char {
    if v < 26 then ('A' as int + v) as char
    else if v < 52 then ('a' as int + v - 26) as char
    else if v < 62 then ('0' as int + v - 52) as char
    else if v == 62 then '-'
    else '_'
  }

  predicate IsUrlChar(c: char) {
    'A' <= c <= 'Z' || 'a' <= c <= 'z' || '0' <= c <= '9' || c == '-' || c == '_'
  }

  function UrlValue(c: char): (r: Option<sextet>)
    ensures r.Some? <==> IsUrlChar(c)
    ensures r.Some? ==> UrlChar(r.value) == c
  {
    if 'A' <= c <= 'Z' then Some(c as int - 'A' as int)
    else if 'a' <= c <= 'z' then Some(c as int - 'a' as int + 26)
    else if '0' <= c <= '9' then Some(c as int - '0' as int + 52)
    else if c == '-' then Some(62)
    else if c == '_' then Some(63)
    else None
  }

  lemma UrlCharValue(v: sextet)
    ensures IsUrlChar(UrlChar(v)) && UrlValue(UrlChar(v)) == Some(v)
  {
  }

  // ---- encoding ----

  /** Three bytes become four characters, six bits each, most significant first. */
  function EncodeGroup(b0: byte, b1: byte, b2: byte): string {
    [UrlChar(b0 / 4), UrlChar((b0 % 4) * 16 + b1 / 16), UrlChar((b1 % 16) * 4 + b2 / 64), UrlChar(b2 % 64)]
  }

  /** The final one or two bytes; zero bits fill the last character and, when
      padding, '=' fills the quantum. */
  function EncodeTail(src: seq<byte>, padded: bool): string
    requires |src| < 3
  {
    if |src| == 0 then ""
    else if |src| == 1 then [UrlChar(src[0] / 4), UrlChar((src[0] % 4) * 16)] + (if padded then "==" else "")
    else [UrlChar(src[0] / 4), UrlChar((src[0] % 4) * 16 + src[1] / 16), UrlChar((src[1] % 16) * 4)]
         + (if padded then "=" else "")
  }

  /** `EncodeToString` of `URLEncoding` (padded) or `RawURLEncoding`. */
  function Encode(src: seq<byte>, padded: bool): string
    decreases |src|
  {
    if |src| < 3 then EncodeTail(src, padded)
    else EncodeGroup(src[0], src[1], src[2]) + Encode(src[3..], padded)
  }

  function Padding(n: nat): string {
    if n % 3 == 1 then "==" else if n % 3 == 2 then "=" else ""
  }

  /** The padded encoding is the unpadded one followed by the '=' characters
      that complete the last quantum. */
  lemma {:induction false} PaddedIsRawPlusPadding(src: seq<byte>)
    ensures Encode(src, true) == Encode(src, false) + Padding(|src|)
    decreases |src|
  {
    if |src| >= 3 {
      PaddedIsRawPlusPadding(src[3..]);
      assert Padding(|src|) == Padding(|src[3..]|) by {
        assert |src| % 3 == (|src| - 3) % 3;
      }
      assert Encode(src, true) == EncodeGroup(src[0], src[1], src[2]) + Encode(src[3..], true);
      assert Encode(src, false) == EncodeGroup(src[0], src[1], src[2]) + Encode(src[3..], false);
    } else if |src| == 1 {
      assert Encode(src, true) == [UrlChar(src[0] / 4), UrlChar((src[0] % 4) * 16)] + "==";
    } else if |src| == 2 {
      assert Padding(|src|) == "=";
    }
  }

  /** Section 4 of RFC 4648: the padded output has 4 * ceil(n / 3) characters;
      the unpadded output drops the padding. */
  lemma {:induction false} EncodedLength(src: seq<byte>)
    ensures |Encode(src, true)| == 4 * ((|src| + 2) / 3)
    ensures |Encode(src, false)| == (4 * |src| + 2) / 3
    decreases |src|
  {
    var n := |src|;
    if n >= 3 {
      EncodedLength(src[3..]);
      assert (n + 2) / 3 == (n - 3 + 2) / 3 + 1;
      assert (4 * n + 2) / 3 == (4 * (n - 3) + 2) / 3 + 4;
      assert |Encode(src, true)| == 4 + |Encode(src[3..], true)|;
      assert |Encode(src, false)| == 4 + |Encode(src[3..], false)|;
    }
  }

  predicate AllUrlChars(s: string) {
    forall i | 0 <= i < |s| :: IsUrlChar(s[i])
  }

  /** The unpadded output uses only the alphabet of section 5: no '=', no line breaks. */
  lemma {:induction false} RawUsesAlphabet(src: seq<byte>)
    ensures AllUrlChars(Encode(src, false))
    decreases |src|
  {
    if |src| >= 3 {
      RawUsesAlphabet(src[3..]);
      var g := EncodeGroup(src[0], src[1], src[2]);
      assert AllUrlChars(g);
    }
  }

  // ---- decoding ----

  function StripLineBreaks(s: string): (r: string)
    ensures forall i | 0 <= i < |r| :: r[i] != '\n' && r[i] != '\r'
    decreases |s|
  {
    if |s| == 0 then ""
    else if s[0] == '\n' || s[0] == '\r' then StripLineBreaks(s[1..])
    else [s[0]] + StripLineBreaks(s[1..])
  }

  lemma {:induction false} StripNoLineBreaks(s: string)
    requires AllUrlChars(s) || (forall i | 0 <= i < |s| :: IsUrlChar(s[i]) || s[i] == PadChar)
    ensures StripLineBreaks(s) == s
    decreases |s|
  {
    if |s| > 0 {
      StripNoLineBreaks(s[1..]);
      assert s == [s[0]] + s[1..];
    }
  }

  function DecodeGroup(c0: sextet, c1: sextet, c2: sextet, c3: sextet): seq<byte> {
    [c0 * 4 + c1 / 16, (c1 % 16) * 16 + c2 / 4, (c2 % 4) * 64 + c3]
  }

  /** Decoding of input with line breaks already removed. */
  function DecodeQuanta(s: string, padded: bool): Option<seq<byte>>
    decreases |s|
  {
    if |s| == 0 then Some([])
    else if |s| >= 4 && IsUrlChar(s[0]) && IsUrlChar(s[1]) && IsUrlChar(s[2]) && IsUrlChar(s[3]) then
      var rest := DecodeQuanta(s[4..], padded);
      if rest.None? then None
      else Some(DecodeGroup(UrlValue(s[0]).value, UrlValue(s[1]).value, UrlValue(s[2]).value,
                            UrlValue(s[3]).value) + rest.value)
    else if padded then
      if |s| == 4 && IsUrlChar(s[0]) && IsUrlChar(s[1]) && s[2] == PadChar && s[3] == PadChar then
        Some([UrlValue(s[0]).value * 4 + UrlValue(s[1]).value / 16])
      else if |s| == 4 && IsUrlChar(s[0]) && IsUrlChar(s[1]) && IsUrlChar(s[2]) && s[3] == PadChar then
        var c1 := UrlValue(s[1]).value;
        Some([UrlValue(s[0]).value * 4 + c1 / 16, (c1 % 16) * 16 + UrlValue(s[2]).value / 4])
      else None
    else
      if |s| == 2 && IsUrlChar(s[0]) && IsUrlChar(s[1]) then
        Some([UrlValue(s[0]).value * 4 + UrlValue(s[1]).value / 16])
      else if |s| == 3 && IsUrlChar(s[0]) && IsUrlChar(s[1]) && IsUrlChar(s[2]) then
        var c1 := UrlValue(s[1]).value;
        Some([UrlValue(s[0]).value * 4 + c1 / 16, (c1 % 16) * 16 + UrlValue(s[2]).value / 4])
      else None
  }

  /** `DecodeString` of `URLEncoding` (padded) or `RawURLEncoding`; `None` is a
      `CorruptInputError`. */
  function Decode(s: string, padded: bool): Option<seq<byte>> {
    DecodeQuanta(StripLineBreaks(s), padded)
  }

  lemma GroupRoundTrip(b0: byte, b1: byte, b2: byte)
    ensures DecodeGroup(b0 / 4, (b0 % 4) * 16 + b1 / 16, (b1 % 16) * 4 + b2 / 64, b2 % 64) == [b0, b1, b2]
  {
    var c1 := (b0 % 4) * 16 + b1 / 16;
    var c2 := (b1 % 16) * 4 + b2 / 64;
    assert c1 / 16 == b0 % 4 && c1 % 16 == b1 / 16;
    assert c2 / 4 == b1 % 16 && c2 % 4 == b2 / 64;
  }

  lemma TailOneRoundTrip(b0: byte, padded: bool)
    ensures DecodeQuanta(EncodeTail([b0], padded), padded) == Some([b0])
  {
    UrlCharValue(b0 / 4);
    UrlCharValue((b0 % 4) * 16);
    assert ((b0 % 4) * 16) / 16 == b0 % 4;
  }

  lemma TailTwoRoundTrip(b0: byte, b1: byte, padded: bool)
    ensures DecodeQuanta(EncodeTail([b0, b1], padded), padded) == Some([b0, b1])
  {
    var c0 := b0 / 4;
    var c1 := (b0 % 4) * 16 + b1 / 16;
    var c2 := (b1 % 16) * 4;
    UrlCharValue(c0);
    UrlCharValue(c1);
    UrlCharValue(c2);
    TailTwoBits(b0, b1);
    var e := EncodeTail([b0, b1], padded);
    assert e[..3] == [UrlChar(c0), UrlChar(c1), UrlChar(c2)];
  }

  lemma TailTwoBits(b0: byte, b1: byte)
    ensures var c1 := (b0 % 4) * 16 + b1 / 16;
      (b0 / 4) * 4 + c1 / 16 == b0 && (c1 % 16) * 16 + ((b1 % 16) * 4) / 4 == b1
  {
    var c1 := (b0 % 4) * 16 + b1 / 16;
    assert c1 / 16 == b0 % 4 && c1 % 16 == b1 / 16;
    assert ((b1 % 16) * 4) / 4 == b1 % 16;
  }

  lemma GroupStep(b0: byte, b1: byte, b2: byte, rest: string, padded: bool, tail: seq<byte>)
    requires DecodeQuanta(rest, padded) == Some(tail)
    ensures DecodeQuanta(EncodeGroup(b0, b1, b2) + rest, padded) == Some([b0, b1, b2] + tail)
  {
    var e := EncodeGroup(b0, b1, b2) + rest;
    UrlCharValue(b0 / 4);
    UrlCharValue((b0 % 4) * 16 + b1 / 16);
    UrlCharValue((b1 % 16) * 4 + b2 / 64);
    UrlCharValue(b2 % 64);
    GroupRoundTrip(b0, b1, b2);
    assert e[4..] == rest;
  }

  lemma {:induction false} DecodeEncodeQuanta(src: seq<byte>, padded: bool)
    ensures DecodeQuanta(Encode(src, padded), padded) == Some(src)
    decreases |src|
  {
    if |src| >= 3 {
      DecodeEncodeQuanta(src[3..], padded);
      GroupStep(src[0], src[1], src[2], Encode(src[3..], padded), padded, src[3..]);
      assert src == [src[0], src[1], src[2]] + src[3..];
    } else if |src| == 1 {
      TailOneRoundTrip(src[0], padded);
      assert src == [src[0]];
    } else if |src| == 2 {
      TailTwoRoundTrip(src[0], src[1], padded);
      assert src == [src[0], src[1]];
    }
  }

  lemma {:induction false} EncodeCharacters(src: seq<byte>, padded: bool)
    ensures forall i | 0 <= i < |Encode(src, padded)| :: IsUrlChar(Encode(src, padded)[i]) || Encode(src, padded)[i] == PadChar
    decreases |src|
  {
    if |src| >= 3 {
      EncodeCharacters(src[3..], padded);
    }
  }

  /** Decoding inverts encoding, with and without padding. */
  lemma DecodeEncode(src: seq<byte>, padded: bool)
    ensures Decode(Encode(src, padded), padded) == Some(src)
  {
    EncodeCharacters(src, padded);
    StripNoLineBreaks(Encode(src, padded));
    DecodeEncodeQuanta(src, padded);
  }
}
