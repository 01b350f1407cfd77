/** The protocol a client starts in: it holds the credentials and decides,
    from a `component_nego` probe, whether the device speaks the
    secure-passthrough protocol or KLAP. */
module DiscoveryProtocols {
  import opened Wrappers
  import opened Errors
  import opened Json
  import opened TapoResponses

  /** `DiscoveryProtocol`: the credentials as they were given. */
  datatype DiscoveryProtocol = DiscoveryProtocol(username: string, password: string)

  /** `test_passthrough`, given the outcome of posting the probe and
      reading its reply: the reply's error code is validated. */
  function TestPassthrough(reply: Result<TapoResponse<Json>, Error>): (r: Result<(), Error>)
    ensures reply.Err? ==> r == Err(reply.error)
    ensures reply.Ok? ==> r == ValidateResponse(reply.value)
  {
    var response :- reply;
    ValidateResponse(response)
  }

  /** `is_passthrough_supported`: only the probe failing with
      `Unknown(1003)` means the device does not speak passthrough. */
  function IsPassthroughSupported(probe: Result<(), Error>): (r: bool)
    ensures !r <==> probe == Err(Tapo(Unknown(1003)))
  {
    !(probe.Err? && probe.error.Tapo? && probe.error.response.Unknown? && probe.error.response.code == 1003)
  }

  /** A device answers the probe with error code 1003 exactly when it is
      taken for a KLAP device; a transport failure, another code or
      success all count as passthrough support. */
  lemma ProbeDecision(reply: Result<TapoResponse<Json>, Error>)
    ensures reply.Ok? ==> (!IsPassthroughSupported(TestPassthrough(reply)) <==> reply.value.errorCode == 1003)
    ensures reply.Err? ==> (!IsPassthroughSupported(TestPassthrough(reply)) <==> reply.error == Tapo(Unknown(1003)))
  {
    if reply.Ok? && reply.value.errorCode == 1003 {
      PositiveCodeIsUnknown<Json>(reply.value.result);
    }
  }
}
