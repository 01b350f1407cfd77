/** The UDP discovery query: a 16-byte header, then the JSON key payload,
    with header bytes 12..16 finally overwritten by the CRC-32 of the whole
    query as it stood with the fixed initial value in that slot. */
module DiscoveryQuery {
  import opened Wrappers
  import opened Bytes
  import opened Json
  import Utf8

  /** `0x5A6B7C8Di32.to_be_bytes()`. */
  const InitialCrc: Bytes := [0x5A, 0x6B, 0x7C, 0x8D]

  /** The payload `{"params":{"rsa_key":<pem>}}`, as `serde_json::to_vec` writes it. */
  function KeyPayload(pem: string): (r: Json)
    ensures Get(r, "params").Some? && Get(Get(r, "params").value, "rsa_key") == Some(JStr(pem))
  {
    JObj([("params", JObj([("rsa_key", JStr(pem))]))])
  }

  /** The header with the given four bytes in the CRC slot: version 2,
      message type 0, op code 1, the payload length as `u16`, flags 17, a
      zero padding byte, the device serial. */
  function Header(payloadLength: nat, serial: Bytes, crcSlot: Bytes): (r: Bytes)
    requires |serial| == 4 && |crcSlot| == 4
    ensures |r| == 16
    ensures r[0] == 2 && r[1] == 0 && r[2..4] == [0, 1]
    ensures r[4..6] == U16BE(AsU16(payloadLength)) && r[6] == 17 && r[7] == 0
    ensures r[8..12] == serial && r[12..16] == crcSlot
  {
    [2] + [0] + U16BE(1) + U16BE(AsU16(payloadLength)) + [17] + [0] + serial + crcSlot
  }

  /** The query before the CRC patch. */
  function Unpatched(payload: Bytes, serial: Bytes): (r: Bytes)
    requires |serial| == 4
    ensures |r| == 16 + |payload| && r[16..] == payload && r[12..16] == InitialCrc
  {
    Header(|payload|, serial, InitialCrc) + payload
  }

  /** The specification of the query as a whole: the patched bytes. */
  function Query(crc32: Bytes -> u32, payload: Bytes, serial: Bytes): (r: Bytes)
    requires |serial| == 4
    ensures |r| == 16 + |payload|
    ensures r[..12] == Unpatched(payload, serial)[..12] && r[16..] == Unpatched(payload, serial)[16..]
  {
    var u := Unpatched(payload, serial);
    u[..12] + U32BE(crc32(u)) + u[16..]
  }

  /** The bytes of the key payload. */
  function KeyPayloadBytes(pem: string): Bytes {
    Utf8.Encode(Serialize(KeyPayload(pem)))
  }

  /** `query[12..16].copy_from_slice(&crc)`: only those four bytes change. */
  method PatchCrc(query: array<byte>, crc: Bytes)
    requires query.Length >= 16 && |crc| == 4
    modifies query
    ensures query[..] == old(query[..])[..12] + crc + old(query[..])[16..]
  {
    for k := 0 to 4
      invariant forall i :: 0 <= i < query.Length && !(12 <= i < 12 + k) ==> query[i] == old(query[i])
      invariant forall i :: 12 <= i < 12 + k ==> query[i] == crc[i - 12]
    {
      query[12 + k] := crc[k];
    }
    assert query[..] == old(query[..])[..12] + crc + old(query[..])[16..];
  }

  /** `generate`, given the PEM text of the public key, the four random
      bytes of the serial and CRC-32. The header is assembled piece by
      piece, the payload appended, and the CRC copied into bytes 12..16. */
  method Generate(crc32: Bytes -> u32, pem: string, secret: Bytes) returns (query: array<byte>)
    requires |secret| == 4
    ensures fresh(query)
    ensures query[..] == Query(crc32, KeyPayloadBytes(pem), secret)
  {
    var payload := KeyPayloadBytes(pem);
    var header: Bytes := [];
    header := header + [2];
    header := header + [0];
    header := header + U16BE(1);
    header := header + U16BE(AsU16(|payload|));
    header := header + [17];
    header := header + [0];
    header := header + secret;
    header := header + InitialCrc;
    var built := header + payload;
    assert built == Unpatched(payload, secret);
    query := new byte[|built|](i requires 0 <= i < |built| => built[i]);
    assert query[..] == built;
    PatchCrc(query, U32BE(crc32(built)));
  }

  /** The query's layout field by field: the CRC slot holds the checksum of
      the query as it was with the initial value there. */
  lemma QueryLayout(crc32: Bytes -> u32, payload: Bytes, serial: Bytes)
    requires |serial| == 4
    ensures var q := Query(crc32, payload, serial);
      q[0] == 2 && q[1] == 0 && q[2..4] == [0, 1] &&
      q[4..6] == U16BE(AsU16(|payload|)) && q[6] == 17 && q[7] == 0 &&
      q[8..12] == serial &&
      FromBE(q[12..16]) == crc32(Header(|payload|, serial, InitialCrc) + payload) &&
      q[16..] == payload
  {
    var u := Unpatched(payload, serial);
    var q := Query(crc32, payload, serial);
    var h := Header(|payload|, serial, InitialCrc);
    assert u[..16] == h;
    assert q[..12] == h[..12];
    assert q[12..16] == U32BE(crc32(u));
    assert q[2..4] == h[2..4] && q[4..6] == h[4..6] && q[8..12] == h[8..12];
  }

  /** A payload longer than `u16::MAX` has its length truncated in the header. */
  lemma LengthIsTruncated(payloadLength: nat, serial: Bytes)
    requires |serial| == 4 && payloadLength == 0x1_0005
    ensures Header(payloadLength, serial, InitialCrc)[4..6] == [0, 5]
  {
  }
}
