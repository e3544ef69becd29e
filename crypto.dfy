/**
 * Blowfish-CBC decryption of one base64 credential (services/crypto.py).
 * The cipher, base64 decoding and UTF-8 coding are library code; they are
 * parameters here.  What the module itself does is the PKCS#7 trim of
 * section 6.3 of RFC 5652 with an 8-byte block, and wrapping every failure
 * into ValueError.
 */
module Crypto {
  import opened Wrappers

  type Byte = b: int | 0 <= b < 256
  type Bytes = seq<Byte>

  /** The Blowfish block size, which is also the largest pad length trimmed. */
  const BlockSize: nat := 8

  /** Library functions the decryption calls; None stands for "raised". */
  datatype Primitives = Primitives(
    b64decode: string -> Option<Bytes>,
    encodeUtf8: string -> Bytes,
    blowfishCbcDecrypt: (Bytes, Bytes, Bytes) -> Option<Bytes>,
    decodeUtf8: Bytes -> Option<string>)

  /** `Blowfish.new` accepts keys of 4 to 56 bytes. */
  predicate ValidKey(key: Bytes) {
    4 <= |key| <= 56
  }

  /** CBC mode needs an IV of exactly one block. */
  predicate ValidIv(iv: Bytes) {
    |iv| == BlockSize
  }

  /** The trailing bytes `d[:-p]` removes for pad byte `p` (0 when untrimmed). */
  function TrimmedCount(d: Bytes): nat
    requires d != []
  {
    var p := d[|d| - 1];
    if 0 < p <= BlockSize then p else 0
  }

  /**
   * The padding trim: the last byte `p` says how many bytes to drop when
   * 1 <= p <= 8; otherwise nothing is dropped.  An empty buffer has no last
   * byte, which Python reports as an IndexError.  Python's `d[:-p]` with
   * p > len(d) yields the empty buffer, which the clamp below reproduces.
   */
  function Unpad(d: Bytes): (r: Result<Bytes>)
    ensures r.Err? <==> d == []
    ensures r.Ok? ==> |r.value| <= |d| && r.value == d[..|r.value|]
    ensures r.Ok? ==> |r.value| == if TrimmedCount(d) <= |d| then |d| - TrimmedCount(d) else 0
  {
    if d == [] then Err(IndexError)
    else
      var p := TrimmedCount(d);
      Ok(if p <= |d| then d[..|d| - p] else [])
  }

  /** `n` copies of the byte `n`: the padding RFC 5652 appends for pad length n. */
  function Padding(n: nat): (r: Bytes)
    requires 1 <= n <= BlockSize
    ensures |r| == n && forall i :: 0 <= i < n ==> r[i] == n
  {
    seq(n, _ => n)
  }

  /** PKCS#7 padding of section 6.3 of RFC 5652 for an 8-byte block. */
  function Pad(m: Bytes): (r: Bytes)
    ensures |r| % BlockSize == 0 && |m| < |r| <= |m| + BlockSize
  {
    m + Padding(BlockSize - |m| % BlockSize)
  }

  /** Unpadding undoes any padding of length 1 to 8. */
  lemma UnpadPadding(m: Bytes, n: nat)
    requires 1 <= n <= BlockSize
    ensures Unpad(m + Padding(n)) == Ok(m)
  {
    var d := m + Padding(n);
    assert d[|d| - 1] == n;
    assert d[..|d| - n] == m;
  }

  /** Round trip: unpadding a padded message gives the message back. */
  lemma UnpadPad(m: Bytes)
    ensures Unpad(Pad(m)) == Ok(m)
  {
    UnpadPadding(m, BlockSize - |m| % BlockSize);
  }

  /**
   * `decrypt_blowfish`: base64-decode, build the cipher, decrypt, trim the
   * padding and decode UTF-8; any failure on the way becomes ValueError.
   */
  function DecryptBlowfish(encrypted: string, key: string, iv: string, p: Primitives): (r: Result<string>)
    ensures r.Err? ==> r.error.ValueError?
    ensures r.Ok? ==> ValidKey(p.encodeUtf8(key)) && ValidIv(p.encodeUtf8(iv))
    ensures r.Ok? ==> p.b64decode(encrypted).Some?
  {
    match p.b64decode(encrypted)
    case None => Err(ValueError("invalid base64"))
    case Some(ciphertext) =>
      var k := p.encodeUtf8(key);
      var v := p.encodeUtf8(iv);
      if !ValidKey(k) then Err(ValueError("incorrect Blowfish key length"))
      else if !ValidIv(v) then Err(ValueError("incorrect IV length"))
      else match p.blowfishCbcDecrypt(k, v, ciphertext)
        case None => Err(ValueError("data must be padded to 8 byte boundary"))
        case Some(plain) =>
          match Unpad(plain)
          case Err(_) => Err(ValueError("index out of range"))
          case Ok(unpadded) =>
            match p.decodeUtf8(unpadded)
            case None => Err(ValueError("invalid utf-8"))
            case Some(s) => Ok(s)
  }

  /**
   * Decrypting the base64 of a Blowfish-CBC encryption of a padded UTF-8
   * message gives the message back, for any valid key and IV.
   */
  lemma DecryptRoundTrip(encrypted: string, key: string, iv: string, p: Primitives, message: Bytes, text: string)
    requires ValidKey(p.encodeUtf8(key)) && ValidIv(p.encodeUtf8(iv))
    requires p.b64decode(encrypted).Some?
    requires p.blowfishCbcDecrypt(p.encodeUtf8(key), p.encodeUtf8(iv), p.b64decode(encrypted).value) == Some(Pad(message))
    requires p.decodeUtf8(message) == Some(text)
    ensures DecryptBlowfish(encrypted, key, iv, p) == Ok(text)
  {
    UnpadPad(message);
  }
}
