/** The request envelope both crates send: a method tag and the
    `TapoParams` record (the payload, an optional request time and an
    optional terminal UUID), and how serde writes them. */
module TapoRequests {
  import opened Wrappers
  import opened Bytes
  import opened Errors
  import opened Json

  /** The variants of `TapoRequest` in the current crate. */
  datatype Method =
    | ComponentNegotiation
    | Handshake
    | LoginDevice
    | SecurePassthrough
    | SetDeviceInfo
    | SetLightingEffect
    | GetDeviceInfo
    | GetDeviceUsage
    | GetEnergyUsage
    | GetEnergyData
    | GetCurrentPower
    | GetChildDeviceList
    | GetChildDeviceComponentList
    | ControlChild
    | MultipleRequest
    | GetTriggerLogs
    | GetTemperatureHumidityRecords

  /** The `method` tag: four explicit renames, snake_case otherwise. */
  function MethodName(m: Method): string {
    match m
    case ComponentNegotiation => "component_nego"
    case Handshake => "handshake"
    case LoginDevice => "login_device"
    case SecurePassthrough => "securePassthrough"
    case SetDeviceInfo => "set_device_info"
    case SetLightingEffect => "set_lighting_effect"
    case GetDeviceInfo => "get_device_info"
    case GetDeviceUsage => "get_device_usage"
    case GetEnergyUsage => "get_energy_usage"
    case GetEnergyData => "get_energy_data"
    case GetCurrentPower => "get_current_power"
    case GetChildDeviceList => "get_child_device_list"
    case GetChildDeviceComponentList => "get_child_device_component_list"
    case ControlChild => "control_child"
    case MultipleRequest => "multipleRequest"
    case GetTriggerLogs => "get_trigger_logs"
    case GetTemperatureHumidityRecords => "get_temp_humidity_records"
  }

  /** The method a device reads from a tag. */
  function ParseMethod(name: string): (r: Option<Method>)
    ensures r.Some? ==> MethodName(r.value) == name
  {
    if name == "component_nego" then Some(ComponentNegotiation)
    else if name == "handshake" then Some(Handshake)
    else if name == "login_device" then Some(LoginDevice)
    else if name == "securePassthrough" then Some(SecurePassthrough)
    else if name == "set_device_info" then Some(SetDeviceInfo)
    else if name == "set_lighting_effect" then Some(SetLightingEffect)
    else if name == "get_device_info" then Some(GetDeviceInfo)
    else if name == "get_device_usage" then Some(GetDeviceUsage)
    else if name == "get_energy_usage" then Some(GetEnergyUsage)
    else if name == "get_energy_data" then Some(GetEnergyData)
    else if name == "get_current_power" then Some(GetCurrentPower)
    else if name == "get_child_device_list" then Some(GetChildDeviceList)
    else if name == "get_child_device_component_list" then Some(GetChildDeviceComponentList)
    else if name == "control_child" then Some(ControlChild)
    else if name == "multipleRequest" then Some(MultipleRequest)
    else if name == "get_trigger_logs" then Some(GetTriggerLogs)
    else if name == "get_temp_humidity_records" then Some(GetTemperatureHumidityRecords)
    else None
  }

  /** Every tag names exactly one method. */
  lemma MethodNameRoundTrip(m: Method)
    ensures ParseMethod(MethodName(m)) == Some(m)
  {
    if m.ComponentNegotiation? || m.Handshake? || m.LoginDevice? || m.SecurePassthrough? || m.SetDeviceInfo? || m.SetLightingEffect? {
      SessionTagsRoundTrip(m);
    } else if m.GetDeviceInfo? || m.GetDeviceUsage? || m.GetEnergyUsage? || m.GetEnergyData? || m.GetCurrentPower? || m.GetChildDeviceList? {
      QueryTagsRoundTrip(m);
    } else if m.GetChildDeviceComponentList? || m.ControlChild? || m.MultipleRequest? {
      ChildTagsRoundTrip(m);
    } else {
      RecordTagsRoundTrip(m);
    }
  }

  lemma SessionTagsRoundTrip(m: Method)
    requires m.ComponentNegotiation? || m.Handshake? || m.LoginDevice? || m.SecurePassthrough? || m.SetDeviceInfo? || m.SetLightingEffect?
    ensures ParseMethod(MethodName(m)) == Some(m)
  {
  }

  lemma QueryTagsRoundTrip(m: Method)
    requires m.GetDeviceInfo? || m.GetDeviceUsage? || m.GetEnergyUsage? || m.GetEnergyData? || m.GetCurrentPower? || m.GetChildDeviceList?
    ensures ParseMethod(MethodName(m)) == Some(m)
  {
  }

  lemma ChildTagsRoundTrip(m: Method)
    requires m.GetChildDeviceComponentList? || m.ControlChild? || m.MultipleRequest?
    ensures ParseMethod(MethodName(m)) == Some(m)
  {
    if m.GetChildDeviceComponentList? {
      assert ParseMethod("get_child_device_component_list") == Some(GetChildDeviceComponentList);
    } else if m.ControlChild? {
      assert ParseMethod("control_child") == Some(ControlChild);
    } else {
      assert ParseMethod("multipleRequest") == Some(MultipleRequest);
    }
  }

  lemma RecordTagsRoundTrip(m: Method)
    requires m.GetTriggerLogs? || m.GetTemperatureHumidityRecords?
    ensures ParseMethod(MethodName(m)) == Some(m)
  {
    if m.GetTriggerLogs? {
      assert ParseMethod("get_trigger_logs") == Some(GetTriggerLogs);
    } else {
      assert ParseMethod("get_temp_humidity_records") == Some(GetTemperatureHumidityRecords);
    }
  }

  /** `TapoParams<T>`. */
  datatype TapoParams<T> = TapoParams(params: T, requestTimeMilis: Option<u64>, terminalUuid: Option<string>)

  /** `TapoParams::new`: the payload, and neither optional field. */
  function NewParams<T>(params: T): (r: TapoParams<T>)
    ensures r.params == params && r.requestTimeMilis.None? && r.terminalUuid.None?
  {
    TapoParams(params, None, None)
  }

  /** `set_request_time_mils`, given the clock as milliseconds since the
      epoch: a clock before the epoch fails `duration_since`, and the
      `u128` milliseconds are truncated to `u64`. */
  function SetRequestTimeMils<T>(p: TapoParams<T>, nowMillis: int): (r: Result<TapoParams<T>, Error>)
    ensures r.Ok? <==> nowMillis >= 0
    ensures r.Ok? ==> r.value.params == p.params && r.value.terminalUuid == p.terminalUuid
    ensures r.Ok? ==> r.value.requestTimeMilis == Some(nowMillis % 0x1_0000_0000_0000_0000)
  {
    if nowMillis < 0 then Err(Other("second time provided was later than self"))
    else Ok(p.(requestTimeMilis := Some(AsU64(nowMillis))))
  }

  /** `set_terminal_uuid`: only the UUID changes. */
  function SetTerminalUuid<T>(p: TapoParams<T>, uuid: string): (r: TapoParams<T>)
    ensures r.params == p.params && r.requestTimeMilis == p.requestTimeMilis
    ensures r.terminalUuid == Some(uuid)
  {
    p.(terminalUuid := Some(uuid))
  }

  /** The payload of a request: a JSON value, the child requests of a
      `multipleRequest`, or the device id and request of a `control_child`. */
  datatype Body =
    | Value(value: Json)
    | Requests(requests: seq<TapoRequest>)
    | ChildRequest(deviceId: string, requestData: TapoRequest)

  datatype TapoRequest = TapoRequest(tag: Method, params: TapoParams<Body>)

  /** The members of `TapoParams` with a JSON payload, in field order; an
      absent optional field is skipped. `timeKey` is the camelCase name of
      the request-time field, which differs between the crates. */
  function ParamsMembers(p: TapoParams<Json>, timeKey: string): (r: seq<(string, Json)>)
    ensures 1 <= |r| <= 3 && r[0] == ("params", p.params)
  {
    [("params", p.params)]
    + OptMember(timeKey, OptInt(if p.requestTimeMilis.Some? then Some(p.requestTimeMilis.value as int) else None))
    + OptMember("terminalUUID", if p.terminalUuid.Some? then Some(JStr(p.terminalUuid.value)) else None)
  }

  /** An internally tagged request (`tag = "method"`): the tag first, then
      the fields of its `TapoParams`. */
  function RequestJson(tag: string, p: TapoParams<Json>, timeKey: string): (r: Json)
    ensures r.JObj? && |r.members| >= 2
    ensures r.members[0] == ("method", JStr(tag))
  {
    JObj([("method", JStr(tag))] + ParamsMembers(p, timeKey))
  }

  /** The request-time field of the current crate. */
  const TimeKey := "requestTimeMilis"

  /** What the device reads back from a request: the tag, the payload, and
      each optional field exactly when it was set. */
  lemma RequestJsonFields(tag: string, p: TapoParams<Json>)
    ensures Get(RequestJson(tag, p, TimeKey), "method") == Some(JStr(tag))
    ensures Get(RequestJson(tag, p, TimeKey), "params") == Some(p.params)
  {
    var ms := RequestJson(tag, p, TimeKey).members;
    assert ms[1] == ("params", p.params);
  }

  /** The request time is read back exactly when it was set. */
  lemma RequestJsonTime(tag: string, p: TapoParams<Json>)
    ensures Get(RequestJson(tag, p, TimeKey), "requestTimeMilis") ==
      (if p.requestTimeMilis.Some? then Some(JInt(p.requestTimeMilis.value)) else None)
  {
    var ms := RequestJson(tag, p, TimeKey).members;
    if p.requestTimeMilis.Some? {
      assert ms[2] == ("requestTimeMilis", JInt(p.requestTimeMilis.value));
      LookupLast(ms, "requestTimeMilis", 2);
    } else {
      LookupAbsent(ms, "requestTimeMilis");
    }
  }

  /** The terminal UUID is read back exactly when it was set. */
  lemma RequestJsonUuid(tag: string, p: TapoParams<Json>)
    ensures Get(RequestJson(tag, p, TimeKey), "terminalUUID") ==
      (if p.terminalUuid.Some? then Some(JStr(p.terminalUuid.value)) else None)
  {
    var ms := RequestJson(tag, p, TimeKey).members;
    if p.terminalUuid.Some? {
      LookupLast(ms, "terminalUUID", |ms| - 1);
    } else {
      LookupAbsent(ms, "terminalUUID");
    }
  }

  /** A fresh `TapoParams` serialises as the tag and the payload alone. */
  lemma NewParamsJson(m: Method, params: Json)
    ensures RequestJson(MethodName(m), NewParams(params), TimeKey) ==
      JObj([("method", JStr(MethodName(m))), ("params", params)])
  {
  }

  /** The variants of `TapoRequest` in the first crate. */
  datatype LegacyMethod =
    | LegacyHandshake
    | LegacyLoginDevice
    | LegacySecurePassthrough
    | LegacySetDeviceInfo
    | LegacyGetDeviceInfo
    | LegacyGetDeviceUsage
    | LegacyGetEnergyUsage
    | LegacyGetEnergyData

  /** Snake_case except `securePassthrough`. */
  function LegacyMethodName(m: LegacyMethod): string {
    match m
    case LegacyHandshake => "handshake"
    case LegacyLoginDevice => "login_device"
    case LegacySecurePassthrough => "securePassthrough"
    case LegacySetDeviceInfo => "set_device_info"
    case LegacyGetDeviceInfo => "get_device_info"
    case LegacyGetDeviceUsage => "get_device_usage"
    case LegacyGetEnergyUsage => "get_energy_usage"
    case LegacyGetEnergyData => "get_energy_data"
  }

  /** The variant of the current crate with the same name. */
  function Successor(m: LegacyMethod): Method {
    match m
    case LegacyHandshake => Handshake
    case LegacyLoginDevice => LoginDevice
    case LegacySecurePassthrough => SecurePassthrough
    case LegacySetDeviceInfo => SetDeviceInfo
    case LegacyGetDeviceInfo => GetDeviceInfo
    case LegacyGetDeviceUsage => GetDeviceUsage
    case LegacyGetEnergyUsage => GetEnergyUsage
    case LegacyGetEnergyData => GetEnergyData
  }

  /** Every tag of the first crate is still sent, unchanged, by the current
      one, and reads back as that variant. */
  lemma LegacyTagsKept(m: LegacyMethod)
    ensures LegacyMethodName(m) == MethodName(Successor(m))
    ensures ParseMethod(LegacyMethodName(m)) == Some(Successor(m))
  {
  }

  /** The request-time field of the first crate. */
  const LegacyTimeKey := "requestTimeMils"

  /** The first crate writes the request time under its own name and never
      under the current crate's. */
  lemma LegacyRequestJsonFields(tag: string, p: TapoParams<Json>)
    ensures Get(RequestJson(tag, p, LegacyTimeKey), "requestTimeMils") ==
      (if p.requestTimeMilis.Some? then Some(JInt(p.requestTimeMilis.value)) else None)
  {
    var ms := RequestJson(tag, p, LegacyTimeKey).members;
    if p.requestTimeMilis.Some? {
      assert ms[2] == ("requestTimeMils", JInt(p.requestTimeMilis.value));
      LookupLast(ms, "requestTimeMils", 2);
    } else {
      LookupAbsent(ms, "requestTimeMils");
    }
  }

  /** The first crate never sends the current crate's field name. */
  lemma LegacyRequestJsonNoCurrentTime(tag: string, p: TapoParams<Json>)
    ensures Get(RequestJson(tag, p, LegacyTimeKey), "requestTimeMilis").None?
  {
    LookupAbsent(RequestJson(tag, p, LegacyTimeKey).members, "requestTimeMilis");
  }
}
