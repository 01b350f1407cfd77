/** The secure-passthrough session cipher of both crates: the device's
    handshake key, base64 and RSA-encrypted, carries the AES key and IV;
    messages travel as base64 of their AES-128-CBC encryption. Also the
    SHA-1 username digest sent at login. */
module PassthroughCrypto {
  import opened Wrappers
  import opened Bytes
  import opened Errors
  import opened Decimal
  import opened AesCbc
  import opened Crypto
  import opened Hex
  import Base64
  import Utf8

  /** The client's RSA key pair: the PEM text of the public key, and PKCS#1
      v1.5 decryption with the private key, which fails on input that is
      not a well-padded encryption under that key. */
  datatype KeyPair = KeyPair(publicKeyPem: string, rsaDecrypt: Bytes -> Option<Bytes>)

  /** `PassthroughCipher` (and `TpLinkCipher` of the first crate): the AES key and IV. */
  datatype SessionCipher = SessionCipher(key: Block, iv: Block)

  /** Byte offset `n` of the string falls on a character boundary, so that
      `&key[..n]` does not panic. */
  function CharBoundary(s: string, n: nat): bool
    decreases |s|
  {
    n == 0 || (|s| > 0 && |Utf8.EncodeChar(s[0])| <= n && CharBoundary(s[1..], n - |Utf8.EncodeChar(s[0])|))
  }

  /** A key that starts with five ASCII characters, as base64 text does,
      can be previewed. */
  lemma {:induction false} AsciiPrefixIsBoundary(s: string, n: nat)
    requires n <= |s| && forall i :: 0 <= i < n ==> s[i] < 128 as char
    ensures CharBoundary(s, n)
    decreases n
  {
    if n > 0 {
      assert |Utf8.EncodeChar(s[0])| == 1;
      AsciiPrefixIsBoundary(s[1..], n - 1);
    }
  }

  /** Stand-ins for the texts the libraries' own errors carry (the base64
      crate's `DecodeError`, the RSA or openssl error, std's `Utf8Error`):
      only that each step fails with an `Other` error is modelled, not the
      text. The unpadding text is the current crate's own. */
  const Base64Failure := "Invalid base64 input"
  const RsaFailure := "RSA decryption failed"
  const UnpadFailure := "Decryption error: UnpadError"
  const Utf8Failure := "invalid utf-8 sequence"

  /** The decrypted handshake key must be exactly 32 bytes: the AES key,
      then the IV. `prefix` is how each crate starts its error message. */
  function SplitKey(buf: Bytes, prefix: string): (r: Result<SessionCipher, Error>)
    ensures r.Ok? <==> |buf| == 32
    ensures r.Ok? ==> r.value.key + r.value.iv == buf
    ensures r.Err? ==> r == Err(Other(prefix + " 32 bytes, got " + NatToString(|buf|)))
  {
    if |buf| != 32 then Err(Other(prefix + " 32 bytes, got " + NatToString(|buf|)))
    else
      assert buf[..16] + buf[16..32] == buf;
      Ok(SessionCipher(buf[..16], buf[16..32]))
  }

  /** What both constructors do after the preview: base64-decode the key,
      RSA-decrypt it, and split the result. */
  function FromHandshakeKey(key: string, pair: KeyPair, prefix: string): (r: Result<SessionCipher, Error>)
    ensures Base64.Decode(key).None? ==> r == Err(Other(Base64Failure))
    ensures Base64.Decode(key).Some? && pair.rsaDecrypt(Base64.Decode(key).value).None? ==> r == Err(Other(RsaFailure))
    ensures Base64.Decode(key).Some? && pair.rsaDecrypt(Base64.Decode(key).value).Some? ==>
      r == SplitKey(pair.rsaDecrypt(Base64.Decode(key).value).value, prefix)
  {
    match Base64.Decode(key)
    case None => Err(Other(Base64Failure))
    case Some(keyBytes) =>
      match pair.rsaDecrypt(keyBytes)
      case None => Err(Other(RsaFailure))
      case Some(buf) => SplitKey(buf, prefix)
  }

  /** `PassthroughCipher::new`. The debug preview `&key[..5]` panics unless
      byte 5 is a character boundary. */
  function NewCipher(key: string, pair: KeyPair): (r: Result<SessionCipher, Error>)
    requires CharBoundary(key, 5)
    ensures r == FromHandshakeKey(key, pair, "Expected")
  {
    FromHandshakeKey(key, pair, "Expected")
  }

  /** `decode_handshake_key` of the first crate: the same steps, with
      `private_decrypt` filling the buffer; only the message differs. */
  function DecodeHandshakeKey(key: string, pair: KeyPair): (r: Result<SessionCipher, Error>)
    requires CharBoundary(key, 5)
    ensures r == FromHandshakeKey(key, pair, "expected")
  {
    FromHandshakeKey(key, pair, "expected")
  }

  /** The two crates accept the same keys and derive the same cipher. */
  lemma CratesAgreeOnKeys(key: string, pair: KeyPair)
    requires CharBoundary(key, 5)
    ensures NewCipher(key, pair).Ok? <==> DecodeHandshakeKey(key, pair).Ok?
    ensures NewCipher(key, pair).Ok? ==> NewCipher(key, pair) == DecodeHandshakeKey(key, pair)
  {
  }

  /** A key that decrypts to 32 bytes gives the first 16 as the AES key and
      the last 16 as the IV. */
  lemma KeyAndIvFromHandshake(key: string, pair: KeyPair, buf: Bytes)
    requires CharBoundary(key, 5)
    requires Base64.Decode(key).Some? && pair.rsaDecrypt(Base64.Decode(key).value) == Some(buf) && |buf| == 32
    ensures NewCipher(key, pair) == Ok(SessionCipher(buf[..16], buf[16..]))
  {
    var c := NewCipher(key, pair).value;
    assert c.key + c.iv == buf;
    assert c.key == buf[..16] && c.iv == buf[16..];
  }

  /** `encrypt`: the UTF-8 bytes of the message, AES-128-CBC with PKCS#7
      padding, then base64. */
  function Encrypt(p: Primitives, c: SessionCipher, data: string): (r: string)
    ensures |r| == 4 * (((|Utf8.Encode(data)| / 16 + 1) * 16 + 2) / 3)
    ensures Base64.Decode(r) == Some(EncryptPadded(p.cipher, c.key, c.iv, Utf8.Encode(data)).value)
  {
    var ct := EncryptPadded(p.cipher, c.key, c.iv, Utf8.Encode(data)).value;
    Base64.EncodeLength(ct);
    Base64.DecodeEncode(ct);
    Base64.Encode(ct)
  }

  /** `decrypt`: base64, then AES-128-CBC with PKCS#7 padding, then UTF-8;
      each step can fail. */
  function Decrypt(p: Primitives, c: SessionCipher, text: string): (r: Result<string, Error>)
    ensures Base64.Decode(text).None? ==> r == Err(Other(Base64Failure))
    ensures Base64.Decode(text).Some? && DecryptPadded(p.cipher, c.key, c.iv, Base64.Decode(text).value).Err? ==>
      r == Err(Other(UnpadFailure))
    ensures r.Ok? <==> Base64.Decode(text).Some? && DecryptPadded(p.cipher, c.key, c.iv, Base64.Decode(text).value).Ok? &&
                       Utf8.Decode(DecryptPadded(p.cipher, c.key, c.iv, Base64.Decode(text).value).value).Some?
    ensures r.Ok? ==> Utf8.Encode(r.value) == DecryptPadded(p.cipher, c.key, c.iv, Base64.Decode(text).value).value
    ensures r.Err? ==> r.error.Other?
  {
    match Base64.Decode(text)
    case None => Err(Other(Base64Failure))
    case Some(ct) =>
      match DecryptPadded(p.cipher, c.key, c.iv, ct)
      case Err(_) => Err(Other(UnpadFailure))
      case Ok(plain) =>
        match Utf8.Decode(plain)
        case None => Err(Other(Utf8Failure))
        case Some(s) =>
          Utf8.EncodeDecode(plain);
          Ok(s)
  }

  /** Decryption undoes encryption under the same session cipher. */
  lemma DecryptEncrypt(p: Primitives, c: SessionCipher, data: string)
    requires Inverse(p.cipher)
    ensures Decrypt(p, c, Encrypt(p, c, data)) == Ok(data)
  {
    AesCbc.DecryptEncrypt(p.cipher, c.key, c.iv, Utf8.Encode(data));
    Utf8.DecodeEncode(data);
  }

  /** The five-byte message of the cipher test encrypts to one block, so
      its base64 text is 24 characters long. */
  lemma HelloIsTwentyFourCharacters(p: Primitives, c: SessionCipher)
    ensures |Encrypt(p, c, "hello")| == 24
  {
    assert "hello"[1..][1..][1..][1..][1..] == [];
    var n := |Utf8.Encode("hello")|;
    assert n == 5;
    assert 4 * (((n / 16 + 1) * 16 + 2) / 3) == 24;
  }

  /** `sha1_digest_username` (`sha_digest_username` in the first crate,
      which always returns `Ok`): the lowercase hexadecimal SHA-1 of the
      username's bytes, 40 characters that read back as the digest. */
  function Sha1DigestUsername(p: Primitives, username: string): (r: string)
    ensures |r| == 40
    ensures forall i :: 0 <= i < |r| ==> IsLowerHexDigit(r[i])
    ensures ParseHex(r) == Some(p.sha1(Utf8.Encode(username)))
  {
    var digest := p.sha1(Utf8.Encode(username));
    ParseLowerHex(digest);
    LowerHex(digest)
  }
}
