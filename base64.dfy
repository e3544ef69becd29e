/**
 * Base64 encoding (section 4 of RFC 4648) and the URL-safe alphabet of
 * section 5, as far as the installation identifier needs them.
 */
module Base64 {
  import opened Crypto

  /** The alphabet of section 4 of RFC 4648: the character for each 6-bit value. */
  function AlphabetChar(v: nat): (c: char)
    requires v < 64
    ensures IsAlphabetChar(c)
  {
    if v < 26 then ('A' as int + v) as char
    else if v < 52 then ('a' as int + (v - 26)) as char
    else if v < 62 then ('0' as int + (v - 52)) as char
    else if v == 62 then '+'
    else '/'
  }

  predicate IsAlphabetChar(c: char) {
    ('A' <= c <= 'Z') || ('a' <= c <= 'z') || ('0' <= c <= '9') || c == '+' || c == '/'
  }

  /** Encodes one group of up to three bytes into four characters, with '=' padding. */
  function EncodeGroup(b: Bytes): (r: string)
    requires 1 <= |b| <= 3
    ensures |r| == 4
  {
    var b0 := b[0];
    var b1 := if |b| > 1 then b[1] else 0;
    var b2 := if |b| > 2 then b[2] else 0;
    [AlphabetChar(b0 / 4), AlphabetChar((b0 % 4) * 16 + b1 / 16)]
    + (if |b| > 1 then [AlphabetChar((b1 % 16) * 4 + b2 / 64)] else ['='])
    + (if |b| > 2 then [AlphabetChar(b2 % 64)] else ['='])
  }

  /** `base64.b64encode`. */
  function Encode(b: Bytes): (r: string)
    decreases |b|
  {
    if b == [] then []
    else if |b| <= 3 then EncodeGroup(b)
    else EncodeGroup(b[..3]) + Encode(b[3..])
  }

  /** The number of leading characters of `Encode(b)` that are data, not '=' padding. */
  function DataLength(n: nat): nat {
    4 * (n / 3) + (if n % 3 == 0 then 0 else n % 3 + 1)
  }

  /** The first character encodes the top six bits of the first byte. */
  lemma EncodeFirstChar(b: Bytes)
    requires b != []
    ensures Encode(b)[0] == AlphabetChar(b[0] / 4)
  {
  }

  /** Every character before the padding comes from the alphabet. */
  lemma {:induction false} EncodeDataChars(b: Bytes)
    ensures DataLength(|b|) <= |Encode(b)|
    ensures forall i :: 0 <= i < DataLength(|b|) ==> IsAlphabetChar(Encode(b)[i])
    decreases |b|
  {
    if b == [] {
    } else if |b| <= 3 {
      var b0 := b[0];
      var b1 := if |b| > 1 then b[1] else 0;
      var b2 := if |b| > 2 then b[2] else 0;
    } else {
      EncodeDataChars(b[..3]);
      EncodeDataChars(b[3..]);
      var e := Encode(b);
      assert e == Encode(b[..3]) + Encode(b[3..]);
      assert DataLength(|b|) == 4 + DataLength(|b| - 3);
      forall i | 0 <= i < DataLength(|b|)
        ensures IsAlphabetChar(e[i])
      {
        if i >= 4 {
          assert e[i] == Encode(b[3..])[i - 4];
        }
      }
    }
  }

  /** Section 5 of RFC 4648: '+' becomes '-' and '/' becomes '_'. */
  function UrlSafeChar(c: char): char {
    if c == '+' then '-' else if c == '/' then '_' else c
  }

  /** `s.replace('+', '-').replace('/', '_')`. */
  function UrlSafe(s: string): (r: string)
    ensures |r| == |s|
    ensures forall i :: 0 <= i < |s| ==> r[i] == UrlSafeChar(s[i])
    ensures '+' !in r && '/' !in r
  {
    seq(|s|, i requires 0 <= i < |s| => UrlSafeChar(s[i]))
  }
}
