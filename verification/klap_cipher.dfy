/** The KLAP session cipher: key, IV prefix, signature key and starting
    sequence number derived from the two seeds and the user hash; each
    request advances the sequence number, encrypts under an IV ending in
    it, and is framed as signature then ciphertext. */
module KlapCrypto {
  import opened Wrappers
  import opened Bytes
  import opened Errors
  import opened AesCbc
  import opened Crypto
  import Utf8

  /** The ASCII labels prefixed to the seed material. */
  const KeyLabel: Bytes := [108, 115, 107]
  const IvLabel: Bytes := [105, 118]
  const SigLabel: Bytes := [108, 100, 107]

  /** The labels are the bytes of "lsk", "iv" and "ldk". */
  lemma LabelsSpellNames()
    ensures Utf8.Encode("lsk") == KeyLabel
    ensures Utf8.Encode("iv") == IvLabel
    ensures Utf8.Encode("ldk") == SigLabel
  {
    assert "lsk"[1..][1..][1..] == [];
    assert "iv"[1..][1..] == [];
    assert "ldk"[1..][1..][1..] == [];
  }

  /** `key_derive`: the first 16 bytes of SHA-256 of "lsk" and the seed material. */
  function KeyDerive(p: Primitives, h: Bytes): (r: Bytes)
    ensures |r| == 16
  {
    p.sha256(KeyLabel + h)[..16]
  }

  /** `iv_derive`, first half: the first 12 bytes of SHA-256 of "iv" and the
      seed material. */
  function IvDerive(p: Primitives, h: Bytes): (r: Bytes)
    ensures |r| == 12
  {
    p.sha256(IvLabel + h)[..12]
  }

  /** `iv_derive`, second half: the last four bytes of the same hash, read
      as a big-endian `i32`. */
  function SeqDerive(p: Primitives, h: Bytes): i32 {
    BEToI32(p.sha256(IvLabel + h)[28..])
  }

  /** `sig_derive`: the first 28 bytes of SHA-256 of "ldk" and the seed material. */
  function SigDerive(p: Primitives, h: Bytes): (r: Bytes)
    ensures |r| == 28
  {
    p.sha256(SigLabel + h)[..28]
  }

  /** `fetch_add(1)` on the `AtomicI32`, and the new value: it wraps from
      `i32::MAX` to `i32::MIN`. */
  function NextSeq(s: i32): (r: i32)
    ensures s < 0x7FFF_FFFF ==> r == s + 1
    ensures s == 0x7FFF_FFFF ==> r == -0x8000_0000
    ensures (r - s - 1) % 0x1_0000_0000 == 0
  {
    if s == 0x7FFF_FFFF then -0x8000_0000 else s + 1
  }

  /** `iv_seq`: the 12-byte IV prefix, then the sequence number in big-endian. */
  function IvSeq(iv: Bytes, s: i32): (r: Bytes)
    requires |iv| == 12
    ensures |r| == 16 && r[..12] == iv && BEToI32(r[12..]) == s
  {
    var r := iv + I32BE(s);
    assert r[12..] == I32BE(s);
    r
  }

  /** Different sequence numbers give different IVs. */
  lemma IvSeqInjective(iv: Bytes, a: i32, b: i32)
    requires |iv| == 12 && IvSeq(iv, a) == IvSeq(iv, b)
    ensures a == b
  {
    assert IvSeq(iv, a)[12..] == IvSeq(iv, b)[12..];
  }

  /** Two consecutive requests never share an IV. */
  lemma ConsecutiveIvsDiffer(iv: Bytes, s: i32)
    requires |iv| == 12
    ensures IvSeq(iv, s) != IvSeq(iv, NextSeq(s))
  {
    if IvSeq(iv, s) == IvSeq(iv, NextSeq(s)) {
      IvSeqInjective(iv, s, NextSeq(s));
    }
  }

  class KlapCipher {
    const crypto: Primitives
    const key: Bytes
    const iv: Bytes
    const sig: Bytes
    var seqNo: i32

    /** The derived material has the sizes `new` gives it. */
    predicate Valid() {
      |key| == 16 && |iv| == 12 && |sig| == 28
    }

    /** `new`: every value is derived from the concatenated seed material. */
    constructor (crypto: Primitives, localSeed: Bytes, remoteSeed: Bytes, userHash: Bytes)
      ensures this.crypto == crypto
      ensures key == KeyDerive(crypto, localSeed + remoteSeed + userHash)
      ensures iv == IvDerive(crypto, localSeed + remoteSeed + userHash)
      ensures sig == SigDerive(crypto, localSeed + remoteSeed + userHash)
      ensures seqNo == SeqDerive(crypto, localSeed + remoteSeed + userHash)
      ensures Valid()
    {
      var h := localSeed + remoteSeed + userHash;
      this.crypto := crypto;
      key := KeyDerive(crypto, h);
      iv := IvDerive(crypto, h);
      sig := SigDerive(crypto, h);
      seqNo := SeqDerive(crypto, h);
    }

    /** The AES-CBC ciphertext of `data` under sequence number `s`. */
    function Ciphertext(s: i32, data: string): (r: Bytes)
      requires Valid()
      ensures |r| == (|Utf8.Encode(data)| / 16 + 1) * 16
    {
      EncryptPadded(crypto.cipher, key, IvSeq(iv, s), Utf8.Encode(data)).value
    }

    /** The bytes sent for `data` under sequence number `s`: the SHA-256
        signature over the signature key, the sequence number and the
        ciphertext, then the ciphertext. */
    function Frame(s: i32, data: string): (r: Bytes)
      requires Valid()
      ensures |r| == 32 + |Ciphertext(s, data)|
      ensures r[..32] == crypto.sha256(sig + I32BE(s) + Ciphertext(s, data))
      ensures r[32..] == Ciphertext(s, data)
    {
      var ct := Ciphertext(s, data);
      crypto.sha256(sig + I32BE(s) + ct) + ct
    }

    /** `encrypt`: the counter advances by one and the new value both
        frames the request and is returned. */
    method Encrypt(data: string) returns (out: Bytes, s: i32)
      requires Valid()
      modifies this
      ensures seqNo == NextSeq(old(seqNo)) && s == seqNo
      ensures out == Frame(s, data)
    {
      seqNo := NextSeq(seqNo);
      s := seqNo;
      var ct := EncryptPadded(crypto.cipher, key, IvSeq(iv, s), Utf8.Encode(data)).value;
      var signature := crypto.sha256(sig + I32BE(s) + ct);
      out := signature + ct;
    }

    /** `decrypt`: the first 32 bytes (the signature) are skipped, the rest
        is decrypted under `iv_seq(s)` and must be UTF-8. Slicing at 32
        panics on a shorter response. The counter is not touched. The
        UTF-8 failure text stands in for the `{:?}` of std's `Utf8Error`,
        which also prints where the bytes stop being valid. */
    function Decrypt(s: i32, bytes: Bytes): (r: Result<string, Error>)
      requires Valid() && |bytes| >= 32
      ensures r.Ok? <==> DecryptPadded(crypto.cipher, key, IvSeq(iv, s), bytes[32..]).Ok? &&
                         Utf8.Decode(DecryptPadded(crypto.cipher, key, IvSeq(iv, s), bytes[32..]).value).Some?
      ensures r.Ok? ==> Utf8.Encode(r.value) == DecryptPadded(crypto.cipher, key, IvSeq(iv, s), bytes[32..]).value
      ensures r.Err? ==> r.error.Other?
    {
      match DecryptPadded(crypto.cipher, key, IvSeq(iv, s), bytes[32..])
      case Err(_) => Err(Other("Decryption error: UnpadError"))
      case Ok(plain) =>
        match Utf8.Decode(plain)
        case None => Err(Other("Decryption error: Utf8Error"))
        case Some(text) =>
          Utf8.EncodeDecode(plain);
          Ok(text)
    }
  }

  /** A response framed like a request under the same sequence number
      decrypts to the text that was sent. */
  lemma DecryptFrame(c: KlapCipher, s: i32, data: string)
    requires c.Valid() && Inverse(c.crypto.cipher)
    ensures c.Decrypt(s, c.Frame(s, data)) == Ok(data)
  {
    var f := c.Frame(s, data);
    DecryptEncrypt(c.crypto.cipher, c.key, IvSeq(c.iv, s), Utf8.Encode(data));
    Utf8.DecodeEncode(data);
  }

  /** The signature is never checked: only the bytes after it matter. */
  lemma DecryptIgnoresSignature(c: KlapCipher, s: i32, a: Bytes, b: Bytes, rest: Bytes)
    requires c.Valid() && |a| == 32 && |b| == 32
    ensures c.Decrypt(s, a + rest) == c.Decrypt(s, b + rest)
  {
    assert (a + rest)[32..] == rest == (b + rest)[32..];
  }
}
