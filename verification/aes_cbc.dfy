/** AES-128 in CBC mode with PKCS#7 padding, as both ciphers use it
    (`cbc::Encryptor<Aes128>` / `cbc::Decryptor<Aes128>` with
    `block_padding::Pkcs7`). The block cipher itself is a parameter: any
    pair of block functions, and the round trip holds whenever the second
    undoes the first. Chaining, padding and their checks are written out. */
module AesCbc {
  import opened Wrappers
  import opened Bytes

  /** One 16-byte block. */
  type Block = s: Bytes | |s| == 16 witness seq(16, i => 0)

  /** The block cipher under a key: AES-128 encryption and decryption of a
      single block. */
  datatype BlockCipher = BlockCipher(encrypt: (Bytes, Block) -> Block, decrypt: (Bytes, Block) -> Block)

  /** Decryption undoes encryption, block by block, under every key. */
  ghost predicate Inverse(c: BlockCipher) {
    forall k: Bytes, b: Block :: c.decrypt(k, c.encrypt(k, b)) == b
  }

  /** What `new_from_slices` and the padded operations report. */
  datatype CipherError = InvalidLength | UnpadError

  function Pow2(k: nat): (r: nat)
    ensures r >= 1
  {
    if k == 0 then 1 else 2 * Pow2(k - 1)
  }

  /** Bitwise exclusive or of the low `k` bits, least significant first. */
  function XorBits(a: nat, b: nat, k: nat): (r: nat)
    ensures r < Pow2(k)
  {
    if k == 0 then 0
    else (if a % 2 == b % 2 then 0 else 1) + 2 * XorBits(a / 2, b / 2, k - 1)
  }

  lemma {:induction false} XorBitsTwice(a: nat, b: nat, k: nat)
    requires a < Pow2(k)
    ensures XorBits(XorBits(a, b, k), b, k) == a
  {
    if k > 0 {
      XorBitsTwice(a / 2, b / 2, k - 1);
    }
  }

  /** `^` on bytes. */
  function XorByte(a: byte, b: byte): (r: byte) {
    assert Pow2(8) == 256;
    XorBits(a, b, 8)
  }

  lemma XorByteTwice(a: byte, b: byte)
    ensures XorByte(XorByte(a, b), b) == a
  {
    assert Pow2(8) == 256;
    XorBitsTwice(a, b, 8);
  }

  function XorBlock(a: Block, b: Block): (r: Block)
    ensures forall i :: 0 <= i < 16 ==> r[i] == XorByte(a[i], b[i])
  {
    seq(16, i requires 0 <= i < 16 => XorByte(a[i], b[i]))
  }

  /** Xoring the same block twice gives back the first operand. */
  lemma XorBlockTwice(a: Block, b: Block)
    ensures XorBlock(XorBlock(a, b), b) == a
  {
    forall i | 0 <= i < 16
      ensures XorBlock(XorBlock(a, b), b)[i] == a[i]
    {
      XorByteTwice(a[i], b[i]);
    }
  }

  /** The PKCS#7 pad length: 1 to 16, never 0, so a full block of padding
      follows a message whose length is a multiple of 16. */
  function PadLength(n: nat): (p: byte)
    ensures 1 <= p <= 16
    ensures (n + p) % 16 == 0
  {
    16 - n % 16
  }

  /** `Pkcs7::pad`: the message followed by `p` bytes of value `p`. */
  function Pad(m: Bytes): (r: Bytes)
    ensures |r| == (|m| / 16 + 1) * 16
    ensures r[..|m|] == m
    ensures forall i :: |m| <= i < |r| ==> r[i] == PadLength(|m|)
  {
    var p := PadLength(|m|);
    m + seq(p, _ => p)
  }

  /** The strict PKCS#7 check on the last `n` bytes. */
  predicate PaddedWith(b: Bytes, n: nat)
    requires n <= |b|
  {
    forall i :: |b| - n <= i < |b| ==> b[i] == n
  }

  /** `Pkcs7::unpad` behind `decrypt_padded_*`: the input must be whole,
      non-empty blocks; its last byte `n` must lie in 1..16, and the last
      `n` bytes must all be `n`. */
  function Unpad(b: Bytes): (r: Option<Bytes>)
    ensures r.Some? <==> |b| > 0 && |b| % 16 == 0 && 1 <= b[|b| - 1] <= 16 && PaddedWith(b, b[|b| - 1])
    ensures r.Some? ==> r.value == b[..|b| - b[|b| - 1]]
  {
    if |b| == 0 || |b| % 16 != 0 then None
    else
      var n := b[|b| - 1];
      if n == 0 || n > 16 || !PaddedWith(b, n) then None
      else Some(b[..|b| - n])
  }

  /** Removing the padding gives back the message. */
  lemma UnpadPad(m: Bytes)
    ensures Unpad(Pad(m)) == Some(m)
  {
    var r := Pad(m);
    assert r[|r| - 1] == PadLength(|m|);
    assert r[..|r| - PadLength(|m|)] == r[..|m|];
  }

  lemma PadLengthOfUnpadded(b: Bytes, n: nat)
    requires |b| > 0 && |b| % 16 == 0 && 1 <= n <= 16
    ensures PadLength(|b| - n) == n
  {
    var q := |b| / 16;
    assert |b| == 16 * q;
    assert |b| - n == 16 * (q - 1) + (16 - n);
  }

  /** Strict padding is injective: whatever unpads to `m` is exactly the
      padding of `m`. */
  lemma PadUnpad(b: Bytes)
    requires Unpad(b).Some?
    ensures Pad(Unpad(b).value) == b
  {
    var n := b[|b| - 1];
    var m := Unpad(b).value;
    PadLengthOfUnpadded(b, n);
    assert |Pad(m)| == |b|;
    forall i | 0 <= i < |b|
      ensures Pad(m)[i] == b[i]
    {
      if i < |m| {
        assert Pad(m)[..|m|][i] == m[i];
      }
    }
  }

  /** CBC encryption of whole blocks: each plaintext block is xored with the
      previous ciphertext block (the IV first) and encrypted. */
  function EncryptBlocks(c: BlockCipher, key: Bytes, iv: Block, p: Bytes): (r: Bytes)
    requires |p| % 16 == 0
    ensures |r| == |p|
    decreases |p|
  {
    if |p| == 0 then []
    else
      var x: Block := c.encrypt(key, XorBlock(p[..16], iv));
      x + EncryptBlocks(c, key, x, p[16..])
  }

  /** CBC decryption of whole blocks: each ciphertext block is decrypted and
      xored with the previous ciphertext block (the IV first). */
  function DecryptBlocks(c: BlockCipher, key: Bytes, iv: Block, x: Bytes): (r: Bytes)
    requires |x| % 16 == 0
    ensures |r| == |x|
    decreases |x|
  {
    if |x| == 0 then []
    else
      var blk: Block := x[..16];
      XorBlock(c.decrypt(key, blk), iv) + DecryptBlocks(c, key, blk, x[16..])
  }

  /** CBC decryption undoes CBC encryption under the same key and IV. */
  lemma {:induction false} DecryptEncryptBlocks(c: BlockCipher, key: Bytes, iv: Block, p: Bytes)
    requires Inverse(c) && |p| % 16 == 0
    ensures DecryptBlocks(c, key, iv, EncryptBlocks(c, key, iv, p)) == p
    decreases |p|
  {
    if |p| > 0 {
      var x: Block := c.encrypt(key, XorBlock(p[..16], iv));
      var e := EncryptBlocks(c, key, iv, p);
      assert e == x + EncryptBlocks(c, key, x, p[16..]);
      assert e[..16] == x && e[16..] == EncryptBlocks(c, key, x, p[16..]);
      XorBlockTwice(p[..16], iv);
      DecryptEncryptBlocks(c, key, x, p[16..]);
      assert p == p[..16] + p[16..];
    }
  }

  /** `encrypt_padded_vec_mut::<Pkcs7>` after `new_from_slices`: the key
      and the IV must each be 16 bytes. */
  function EncryptPadded(c: BlockCipher, key: Bytes, iv: Bytes, m: Bytes): (r: Result<Bytes, CipherError>)
    ensures r.Err? <==> |key| != 16 || |iv| != 16
    ensures r.Err? ==> r.error == InvalidLength
    ensures r.Ok? ==> |r.value| == (|m| / 16 + 1) * 16
  {
    if |key| != 16 || |iv| != 16 then Err(InvalidLength)
    else Ok(EncryptBlocks(c, key, iv, Pad(m)))
  }

  /** `decrypt_padded_vec_mut::<Pkcs7>` after `new_from_slices`: a key or
      IV of the wrong length, input that is not whole non-empty blocks, or
      bad padding after decryption are errors. */
  function DecryptPadded(c: BlockCipher, key: Bytes, iv: Bytes, x: Bytes): (r: Result<Bytes, CipherError>)
    ensures |key| != 16 || |iv| != 16 ==> r == Err(InvalidLength)
    ensures |key| == 16 && |iv| == 16 && (|x| == 0 || |x| % 16 != 0) ==> r == Err(UnpadError)
    ensures |key| == 16 && |iv| == 16 && |x| % 16 == 0 ==>
      r == (var u := Unpad(DecryptBlocks(c, key, iv, x)); if u.Some? then Ok(u.value) else Err(UnpadError))
  {
    if |key| != 16 || |iv| != 16 then Err(InvalidLength)
    else if |x| == 0 || |x| % 16 != 0 then Err(UnpadError)
    else
      var u := Unpad(DecryptBlocks(c, key, iv, x));
      if u.Some? then Ok(u.value) else Err(UnpadError)
  }

  /** Decrypting what was encrypted under the same key and IV gives back
      the message. */
  lemma DecryptEncrypt(c: BlockCipher, key: Bytes, iv: Bytes, m: Bytes)
    requires Inverse(c) && |key| == 16 && |iv| == 16
    ensures DecryptPadded(c, key, iv, EncryptPadded(c, key, iv, m).value) == Ok(m)
  {
    DecryptEncryptBlocks(c, key, iv, Pad(m));
    UnpadPad(m);
  }

  /** A message shorter than a block encrypts to exactly one block. */
  lemma ShortMessageIsOneBlock(c: BlockCipher, key: Bytes, iv: Bytes, m: Bytes)
    requires |key| == 16 && |iv| == 16 && |m| < 16
    ensures |EncryptPadded(c, key, iv, m).value| == 16
  {
  }
}
