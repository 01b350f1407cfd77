/** The primitives the protocols rely on, as parameters of the model: the
    AES-128 block cipher, SHA-1, SHA-256 and CRC-32. Nothing is assumed of
    them beyond their output sizes; round trips additionally require the
    block cipher to be invertible. */
module Crypto {
  import opened Bytes
  import opened AesCbc

  /** A SHA-1 digest. */
  type Digest20 = s: Bytes | |s| == 20 witness seq(20, i => 0)

  /** A SHA-256 digest. */
  type Digest32 = s: Bytes | |s| == 32 witness seq(32, i => 0)

  datatype Primitives = Primitives(
    cipher: BlockCipher,
    sha1: Bytes -> Digest20,
    sha256: Bytes -> Digest32,
    crc32: Bytes -> u32)
}
