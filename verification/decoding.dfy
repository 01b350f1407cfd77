/** Decoding of the base64 text fields devices send (nicknames, SSIDs):
    standard base64, then UTF-8 validation. */
module Decoding {
  import opened Wrappers
  import opened Bytes
  import opened Json
  import Base64
  import Utf8

  datatype DecodeError = InvalidBase64 | InvalidUtf8

  /** `decode_value`: the string whose UTF-8 bytes are the base64 payload.
      The first failing stage names the error. */
  function DecodeValue(value: string): (r: Result<string, DecodeError>)
    ensures r == Err(InvalidBase64) <==> Base64.Decode(value).None?
    ensures r == Err(InvalidUtf8) <==>
              Base64.Decode(value).Some? && Utf8.Decode(Base64.Decode(value).value).None?
    ensures r.Ok? ==> Utf8.Decode(Base64.Decode(value).value) == Some(r.value)
  {
    match Base64.Decode(value)
    case None => Err(InvalidBase64)
    case Some(bytes) =>
      match Utf8.Decode(bytes)
      case None => Err(InvalidUtf8)
      case Some(s) => Ok(s)
  }

  /** The text encoding the device uses, inverse of `DecodeValue`. */
  function EncodeValue(s: string): string {
    Base64.Encode(Utf8.Encode(s))
  }

  /** A field decodes to `s` exactly when it is the encoding of `s`: every
      string decodes back, and no other spelling is accepted. */
  lemma DecodeValueIsInverse(value: string, s: string)
    ensures DecodeValue(value) == Ok(s) <==> value == EncodeValue(s)
  {
    if DecodeValue(value) == Ok(s) {
      var bytes := Base64.Decode(value).value;
      Base64.DecodeIsEncodeInverse(value, bytes);
      Utf8.DecodeIsEncodeInverse(bytes, s);
    }
    if value == EncodeValue(s) {
      Base64.DecodeEncode(Utf8.Encode(s));
      Utf8.DecodeEncode(s);
    }
  }

  /** `decode` on a raw JSON value, which carries no encoded fields. */
  function DecodeJson(v: Json): (r: Result<Json, DecodeError>)
    ensures r.Ok? && r.value == v
  {
    Ok(v)
  }
}
