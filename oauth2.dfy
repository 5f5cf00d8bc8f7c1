/** State and PKCE generation (pkg/oauth2/oauth2.go). The bytes read from the
    system random source arrive as a parameter; SHA-256 is a parameter too,
    known only to return 32 bytes. */
module OAuth2 {
  import opened Wrappers
  import opened Base64

  /** A SHA-256 digest. */
  type Digest = d: seq<byte> | |d| == 32 witness seq(32, (i: int) => 0 as byte)

  /** What `rand.Read` did with a buffer of the requested length. */
  datatype RandomRead = ReadFailed(reason: string) | Filled(bytes: seq<byte>)

  datatype Pkce = Pkce(verifier: string, challenge: string)

  predicate IsAscii(s: string) {
    forall i | 0 <= i < |s| :: s[i] as int < 128
  }

  /** `[]byte(s)` for an ASCII string. */
  function AsciiBytes(s: string): (r: seq<byte>)
    requires IsAscii(s)
    ensures |r| == |s|
  {
    seq(|s|, i requires 0 <= i < |s| => s[i] as int)
  }

  lemma UrlCharsAreAscii(s: string)
    requires AllUrlChars(s)
    ensures IsAscii(s)
  {
  }

  /** The "S256" method of section 4.2 of RFC 7636:
      BASE64URL-ENCODE(SHA256(ASCII(code_verifier))), without padding. */
  function S256Challenge(verifier: string, sha256: seq<byte> -> Digest): string
    requires IsAscii(verifier)
  {
    Encode(sha256(AsciiBytes(verifier)), false)
  }

  /** `GenerateState`: padded URL-safe base64 of the random bytes, or the
      random source's error. Decoding the state gives back exactly the bytes
      drawn, and its length is 4 * ceil(n / 3). */
  function GenerateState(byteLength: nat, random: RandomRead): (r: Result<string, string>)
    requires random.Filled? ==> |random.bytes| == byteLength
    ensures r.Err? <==> random.ReadFailed?
    ensures r.Err? ==> r.error == random.reason
    ensures r.Ok? ==> Decode(r.value, true) == Some(random.bytes)
    ensures r.Ok? ==> |r.value| == 4 * ((byteLength + 2) / 3)
  {
    match random
    case ReadFailed(e) => Err(e)
    case Filled(b) =>
      DecodeEncode(b, true);
      EncodedLength(b);
      Ok(Encode(b, true))
  }

  /** `GeneratePKCE`: the verifier is unpadded URL-safe base64 of the random
      bytes (so it holds no '=' and decodes back to them) and the challenge is
      its S256 transform. A random-source failure yields no pair. */
  function GeneratePKCE(byteLength: nat, random: RandomRead, sha256: seq<byte> -> Digest): (r: Result<Pkce, string>)
    requires random.Filled? ==> |random.bytes| == byteLength
    ensures r.Err? <==> random.ReadFailed?
    ensures r.Err? ==> r.error == random.reason
    ensures r.Ok? ==> AllUrlChars(r.value.verifier) && IsAscii(r.value.verifier)
    ensures r.Ok? ==> Decode(r.value.verifier, false) == Some(random.bytes)
    ensures r.Ok? ==> |r.value.verifier| == (4 * byteLength + 2) / 3
    ensures r.Ok? ==> r.value.challenge == S256Challenge(r.value.verifier, sha256)
    ensures r.Ok? ==> |r.value.challenge| == 43 && AllUrlChars(r.value.challenge)
  {
    match random
    case ReadFailed(e) => Err(e)
    case Filled(b) =>
      var verifier := Encode(b, false);
      RawUsesAlphabet(b);
      UrlCharsAreAscii(verifier);
      DecodeEncode(b, false);
      EncodedLength(b);
      var h := sha256(AsciiBytes(verifier));
      EncodedLength(h);
      RawUsesAlphabet(h);
      Ok(Pkce(verifier, Encode(h, false)))
  }

  /** Section 4.1 of RFC 7636 asks for a verifier of 43 to 128 characters:
      32 to 96 random bytes give exactly that. */
  lemma VerifierLengthInRange(byteLength: nat, random: RandomRead, sha256: seq<byte> -> Digest)
    requires 32 <= byteLength <= 96
    requires random.Filled? && |random.bytes| == byteLength
    ensures GeneratePKCE(byteLength, random, sha256).Ok?
    ensures 43 <= |GeneratePKCE(byteLength, random, sha256).value.verifier| <= 128
  {
  }
}
