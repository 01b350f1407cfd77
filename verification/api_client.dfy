/** The request helpers of `ApiClient` that sit above the protocol: the
    device URL, the timed and tagged `set_device_info` and
    `set_lighting_effect` requests, and the `control_child` envelope, which
    wraps one child request in a `multipleRequest` inside a
    `control_child`, and its unwrapping of the device's answer. The
    request is executed by an abstract `execute`. */
module ApiClients {
  import opened Wrappers
  import opened Errors
  import opened Json
  import opened TapoResponses
  import opened TapoRequests

  /** `TERMINAL_UUID` of both crates. */
  const TerminalUuid := "00-00-00-00-00-00"

  const UrlScheme := "http://"
  const UrlPath := "/app"

  /** `build_url`: the device's address between the scheme and `/app`. */
  function BuildUrl(ipAddress: string): (r: string)
    ensures |r| == |ipAddress| + 11
    ensures r[..7] == UrlScheme && r[7..|r| - 4] == ipAddress && r[|r| - 4..] == UrlPath
  {
    UrlScheme + ipAddress + UrlPath
  }

  /** The address a device URL was built from, if it has that shape. */
  function HostOf(url: string): (r: Option<string>)
    ensures r.Some? ==> BuildUrl(r.value) == url
  {
    if |url| >= 11 && url[..7] == UrlScheme && url[|url| - 4..] == UrlPath then
      var host := url[7..|url| - 4];
      assert BuildUrl(host) == url[..7] + url[7..|url| - 4] + url[|url| - 4..];
      assert url == url[..7] + url[7..|url| - 4] + url[|url| - 4..];
      Some(host)
    else None
  }

  /** The address can be read back from the URL, so distinct addresses
      give distinct URLs. */
  lemma BuildUrlHost(ipAddress: string)
    ensures HostOf(BuildUrl(ipAddress)) == Some(ipAddress)
  {
    var u := BuildUrl(ipAddress);
    assert u[7..|u| - 4] == ipAddress;
  }

  /** A request with the time set and the terminal UUID attached, as
      `set_device_info` and `set_lighting_effect` build them; fails only for
      a clock before the epoch. */
  function TimedRequest(m: Method, payload: Json, nowMillis: int): (r: Result<TapoRequest, Error>)
    ensures r.Ok? <==> nowMillis >= 0
    ensures r.Err? ==> r.error.Other?
    ensures r.Ok? ==> r.value.tag == m && r.value.params.params == Value(payload)
    ensures r.Ok? ==> r.value.params.terminalUuid == Some(TerminalUuid)
    ensures r.Ok? ==> r.value.params.requestTimeMilis == Some(nowMillis % 0x1_0000_0000_0000_0000)
  {
    var timed :- SetRequestTimeMils(NewParams(Value(payload)), nowMillis);
    Ok(TapoRequest(m, SetTerminalUuid(timed, TerminalUuid)))
  }

  /** `set_device_info`: a `set_device_info` request carrying the new
      device info; its result, if any, is dropped. */
  function SetDeviceInfoCall(execute: TapoRequest -> Result<Option<Json>, Error>, params: Json, nowMillis: int): (r: Result<(), Error>)
    ensures nowMillis < 0 ==> r.Err? && r.error.Other?
    ensures nowMillis >= 0 ==> (r.Ok? <==> execute(TimedRequest(SetDeviceInfo, params, nowMillis).value).Ok?)
  {
    var request :- TimedRequest(SetDeviceInfo, params, nowMillis);
    var _ :- execute(request);
    Ok(())
  }

  /** `set_lighting_effect`: the same with a `set_lighting_effect` request. */
  function SetLightingEffectCall(execute: TapoRequest -> Result<Option<Json>, Error>, effect: Json, nowMillis: int): (r: Result<(), Error>)
    ensures nowMillis < 0 ==> r.Err? && r.error.Other?
    ensures nowMillis >= 0 ==> (r.Ok? <==> execute(TimedRequest(SetLightingEffect, effect, nowMillis).value).Ok?)
  {
    var request :- TimedRequest(SetLightingEffect, effect, nowMillis);
    var _ :- execute(request);
    Ok(())
  }

  /** The getters' `ok_or_else(EmptyResult)`: a request must have a result. */
  function RequireResult<R>(outcome: Result<Option<R>, Error>): (r: Result<R, Error>)
    ensures r.Ok? <==> outcome.Ok? && outcome.value.Some?
    ensures r.Ok? ==> r.value == outcome.value.value
    ensures outcome.Ok? && outcome.value.None? ==> r == Err(Tapo(EmptyResult))
    ensures outcome.Err? ==> r == Err(outcome.error)
  {
    var o :- outcome;
    OkOr(o, Tapo(EmptyResult))
  }

  /** `ControlChildResult`: the `responseData` of a `control_child`
      reply, here the multiple response of the nested request. */
  datatype ControlChildResult<T> = ControlChildResult(responseData: T)

  /** The `control_child` envelope: `ControlChild(device_id,
      MultipleRequest([child]))`, neither with time nor UUID. */
  function ControlChildRequest(deviceId: string, child: TapoRequest): (r: TapoRequest)
    ensures r.tag == ControlChild && r.params.requestTimeMilis.None? && r.params.terminalUuid.None?
  {
    var multiple := TapoRequest(MultipleRequest, NewParams(Requests([child])));
    TapoRequest(ControlChild, NewParams(ChildRequest(deviceId, multiple)))
  }

  /** What a device reads out of a `control_child` request: the device id
      and the single request of the `multipleRequest` inside. */
  function ChildOf(r: TapoRequest): (c: Option<(string, TapoRequest)>) {
    if r.tag == ControlChild && r.params.params.ChildRequest? then
      var inner := r.params.params.requestData;
      if inner.tag == MultipleRequest && inner.params.params.Requests? && |inner.params.params.requests| == 1 then
        Some((r.params.params.deviceId, inner.params.params.requests[0]))
      else None
    else None
  }

  /** The envelope nests exactly one level: the device reads back the
      device id and the child request unchanged, whatever the child is. */
  lemma ChildOfControlChild(deviceId: string, child: TapoRequest)
    ensures ChildOf(ControlChildRequest(deviceId, child)) == Some((deviceId, child))
    ensures ControlChildRequest(deviceId, child).params.params.requestData.params.params.requests == [child]
  {
  }

  /** The unwrapping of `control_child`: the outer result must be present,
      only the first inner response is used (an empty list has no result),
      its error code is validated, and it must carry a result. */
  function UnwrapControlChild<R>(outcome: Result<Option<ControlChildResult<TapoMultipleResponse<R>>>, Error>): (r: Result<R, Error>)
    ensures outcome.Err? ==> r == Err(outcome.error)
    ensures outcome.Ok? && outcome.value.None? ==> r == Err(Tapo(EmptyResult))
    ensures outcome.Ok? && outcome.value.Some? && outcome.value.value.responseData.responses == [] ==> r == Err(Tapo(EmptyResult))
    ensures r.Ok? <==> outcome.Ok? && outcome.value.Some? && |outcome.value.value.responseData.responses| > 0 &&
                       outcome.value.value.responseData.responses[0].errorCode == 0 &&
                       outcome.value.value.responseData.responses[0].result.Some?
    ensures r.Ok? ==> r.value == outcome.value.value.responseData.responses[0].result.value
  {
    var result :- RequireResult(outcome);
    var responses := result.responseData.responses;
    if |responses| == 0 then Err(Tapo(EmptyResult))
    else
      var response := responses[0];
      var _ :- ValidateResponse(response);
      OkOr(response.result, Tapo(EmptyResult))
  }

  /** An error code in the first inner response fails the call with that
      code's error; the responses after the first never matter. */
  lemma UnwrapUsesFirstResponse<R>(first: TapoResponse<R>, rest: seq<TapoResponse<R>>, other: seq<TapoResponse<R>>)
    ensures UnwrapControlChild(Ok(Some(ControlChildResult(TapoMultipleResponse([first] + rest))))) ==
            UnwrapControlChild(Ok(Some(ControlChildResult(TapoMultipleResponse([first] + other)))))
    ensures first.errorCode != 0 ==>
      UnwrapControlChild(Ok(Some(ControlChildResult(TapoMultipleResponse([first] + rest))))) == Err(ValidateResponse(first).error)
  {
    assert ([first] + rest)[0] == first;
    assert ([first] + other)[0] == first;
  }

  /** `control_child`: the envelope, executed with a token, then unwrapped. */
  function ControlChildCall<R>(execute: TapoRequest -> Result<Option<ControlChildResult<TapoMultipleResponse<R>>>, Error>,
                               deviceId: string, child: TapoRequest): (r: Result<R, Error>)
    ensures r.Ok? ==> execute(ControlChildRequest(deviceId, child)).Ok?
  {
    UnwrapControlChild(execute(ControlChildRequest(deviceId, child)))
  }

  /** A hub that answers the envelope with one successful response
      delivers that response's result. */
  lemma ControlChildDelivers<R>(execute: TapoRequest -> Result<Option<ControlChildResult<TapoMultipleResponse<R>>>, Error>,
                                deviceId: string, child: TapoRequest, result: R)
    requires execute(ControlChildRequest(deviceId, child)) == Ok(Some(ControlChildResult(TapoMultipleResponse([TapoResponse(0, Some(result))]))))
    ensures ControlChildCall(execute, deviceId, child) == Ok(result)
  {
  }
}
