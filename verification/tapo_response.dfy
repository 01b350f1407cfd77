/** Validation of the `error_code` of a device response. */
module TapoResponses {
  import opened Wrappers
  import opened Errors
  import opened Bytes
  import Decimal

  /** A device response: an error code and an optional result payload. */
  datatype TapoResponse<T> = TapoResponse(errorCode: i32, result: Option<T>)

  /** The nested list carried by a `multipleRequest` reply. */
  datatype TapoMultipleResponse<T> = TapoMultipleResponse(responses: seq<TapoResponse<T>>)

  /** The error codes the crate gives a name to. */
  predicate IsNamedCode(code: int) {
    code == -1002 || code == -1003 || code == -1008 || code == -1010 || code == -1501 || code == 9999
  }

  /** The code a response error stands for, when it comes from a code. */
  function CodeOf(e: TapoResponseError): Option<int> {
    match e
    case InvalidRequest => Some(-1002)
    case MalformedRequest => Some(-1003)
    case InvalidParameters => Some(-1008)
    case InvalidPublicKey => Some(-1010)
    case InvalidCredentials => Some(-1501)
    case SessionTimeout => Some(9999)
    case Unknown(c) => Some(c)
    case InvalidResponse => None
    case EmptyResult => None
  }

  /** `validate_response`: code 0 is success; six codes have names; any other
      code is `Unknown(code)`. The payload is never looked at. */
  function ValidateResponse<T>(response: TapoResponse<T>): (r: Result<(), Error>)
    ensures r.Ok? <==> response.errorCode == 0
    ensures r.Err? ==> r.error.Tapo? && CodeOf(r.error.response) == Some(response.errorCode as int)
    ensures r.Err? ==> (r.error.response.Unknown? <==> !IsNamedCode(response.errorCode))
  {
    match response.errorCode
    case 0 => Ok(())
    case -1002 => Err(Tapo(InvalidRequest))
    case -1003 => Err(Tapo(MalformedRequest))
    case -1008 => Err(Tapo(InvalidParameters))
    case -1010 => Err(Tapo(InvalidPublicKey))
    case -1501 => Err(Tapo(InvalidCredentials))
    case 9999 => Err(Tapo(SessionTimeout))
    case code => Err(Tapo(Unknown(code)))
  }

  /** Conversely, each named error, and `Unknown(c)` for every code that has
      no name, is produced by exactly its own code. */
  lemma ValidateResponseProduces<T>(e: TapoResponseError, result: Option<T>)
    requires CodeOf(e).Some? && CodeOf(e).value != 0
    requires -0x8000_0000 <= CodeOf(e).value < 0x8000_0000
    requires e.Unknown? ==> !IsNamedCode(e.code)
    ensures ValidateResponse(TapoResponse(CodeOf(e).value, result)) == Err(Tapo(e))
  {
  }

  /** The result depends on the error code alone. */
  lemma ValidateResponseIgnoresResult<T>(a: TapoResponse<T>, b: TapoResponse<T>)
    requires a.errorCode == b.errorCode
    ensures ValidateResponse(a) == ValidateResponse(b)
  {
  }

  /** Positive 1003 is not `MalformedRequest` (that is -1003): it is `Unknown(1003)`. */
  lemma PositiveCodeIsUnknown<T>(result: Option<T>)
    ensures ValidateResponse(TapoResponse(1003, result)) == Err(Tapo(Unknown(1003)))
  {
  }

  /** The message of the older client's check. */
  function LegacyMessage(code: int): string {
    "expected error code 0, got " + Decimal.IntToString(code)
  }

  /** Older `validate_result`: any non-zero code is an error whose message
      carries the code; no code gets special treatment. */
  function ValidateResult<T>(response: TapoResponse<T>): (r: Result<(), Error>)
    ensures r.Ok? <==> response.errorCode == 0
    ensures r.Err? ==> r.error.Other?
    ensures r.Err? ==> |r.error.detail| > 27 && r.error.detail[..27] == "expected error code 0, got "
  {
    if response.errorCode != 0 then Err(Other(LegacyMessage(response.errorCode))) else Ok(())
  }

  /** The older message identifies the code: two codes that give the same
      message are the same code, so the code can be read back from it. */
  lemma ValidateResultMessageIdentifiesCode<T>(a: TapoResponse<T>, b: TapoResponse<T>)
    requires a.errorCode != 0 && b.errorCode != 0
    requires ValidateResult(a) == ValidateResult(b)
    ensures a.errorCode == b.errorCode
  {
    var ma := LegacyMessage(a.errorCode);
    var mb := LegacyMessage(b.errorCode);
    assert ma[27..] == Decimal.IntToString(a.errorCode);
    assert mb[27..] == Decimal.IntToString(b.errorCode);
    Decimal.IntToStringInjective(a.errorCode, b.errorCode);
  }

  /** The older check treats every non-zero code alike, unlike `ValidateResponse`. */
  lemma ValidateResultUniform<T>(a: TapoResponse<T>, b: TapoResponse<T>)
    requires a.errorCode != 0 && b.errorCode != 0
    ensures ValidateResult(a).Err? && ValidateResult(b).Err?
    ensures ValidateResult(a).error.Other? && ValidateResult(b).error.Other?
  {
  }
}
