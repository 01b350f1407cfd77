/** The child-device lists of a hub, in the current crate and in the two
    older layouts: the `model` tag picks the variant, unknown tags become
    `Other`, and decoding a list decodes every child's nickname. */
module ChildDeviceLists {
  import opened Wrappers
  import opened Decoding
  import opened ChildDevice

  /** `ChildDeviceHubResult`. */
  datatype HubChild =
    | KE100(ke100: ChildInfo)
    | S200(s200: ChildInfo)
    | T100(t100: ChildInfo)
    | T110(t110: ChildInfo)
    | T300(t300: ChildInfo)
    | T31X(t31x: ChildInfo)
    | Other

  /** The `model` tag of a hub child: S200B and S200D are one button
      switch, T310 and T315 one sensor, any other tag is `Other`. */
  function HubChildOfModel(model: string, info: ChildInfo): (r: HubChild)
    ensures r.Other? <==> model !in {"KE100", "S200B", "S200D", "T100", "T110", "T300", "T310", "T315"}
    ensures r.S200? <==> model == "S200B" || model == "S200D"
    ensures r.T31X? <==> model == "T310" || model == "T315"
    ensures !r.Other? ==> HubInfo(r) == info
  {
    match model
    case "KE100" => KE100(info)
    case "S200B" => S200(info)
    case "S200D" => S200(info)
    case "T100" => T100(info)
    case "T110" => T110(info)
    case "T300" => T300(info)
    case "T310" => T31X(info)
    case "T315" => T31X(info)
    case _ => Other
  }

  function HubInfo(h: HubChild): ChildInfo
    requires !h.Other?
  {
    match h
    case KE100(i) => i
    case S200(i) => i
    case T100(i) => i
    case T110(i) => i
    case T300(i) => i
    case T31X(i) => i
  }

  /** The tag a hub child is written with: the variant name, or the first
      of its names where it has two. */
  function HubModel(h: HubChild): Option<string> {
    match h
    case KE100(_) => Some("KE100")
    case S200(_) => Some("S200B")
    case T100(_) => Some("T100")
    case T110(_) => Some("T110")
    case T300(_) => Some("T300")
    case T31X(_) => Some("T310")
    case Other => None
  }

  /** Writing a known child's tag and reading it back gives the child. */
  lemma HubModelRoundTrip(h: HubChild)
    requires !h.Other?
    ensures HubChildOfModel(HubModel(h).value, HubInfo(h)) == h
  {
  }

  /** A hub child's `decode`: the variant is kept, the payload decoded,
      and `Other` stays `Other`. */
  function DecodeHubChild(h: HubChild): (r: Result<HubChild, DecodeError>)
    ensures h.Other? ==> r == Ok(Other)
    ensures !h.Other? ==> (r.Ok? <==> Decode(HubInfo(h)).Ok?)
    ensures !h.Other? && r.Ok? ==> HubModel(r.value) == HubModel(h) && HubInfo(r.value) == Decode(HubInfo(h)).value
    ensures r.Err? ==> !h.Other? && r.error == Decode(HubInfo(h)).error
  {
    if h.Other? then Ok(Other)
    else
      var d :- Decode(HubInfo(h));
      Ok(WithHubInfo(h, d))
  }

  /** `ChildDeviceListHubResult::decode`. */
  function DecodeHubList(devices: seq<HubChild>): (r: Result<seq<HubChild>, DecodeError>)
    ensures r == DecodeAll(devices, DecodeHubChild)
    ensures r.Ok? ==> |r.value| == |devices|
    ensures r.Ok? ==> forall i :: 0 <= i < |devices| ==> HubModel(r.value[i]) == HubModel(devices[i])
  {
    DecodeAll(devices, DecodeHubChild)
  }

  /** The device's encoding of every nickname decodes back, so a list of
      encoded children decodes to the same children with plain nicknames. */
  lemma DecodeHubChildEncoded(h: HubChild, name: string)
    requires !h.Other?
    ensures DecodeHubChild(WithHubInfo(h, HubInfo(h).(nickname := EncodeValue(name)))) ==
      Ok(WithHubInfo(h, HubInfo(h).(nickname := name)))
  {
    DecodeEncoded(HubInfo(h), name);
  }

  function WithHubInfo(h: HubChild, info: ChildInfo): (r: HubChild)
    requires !h.Other?
    ensures !r.Other? && HubModel(r) == HubModel(h) && HubInfo(r) == info
  {
    match h
    case KE100(_) => KE100(info)
    case S200(_) => S200(info)
    case T100(_) => T100(info)
    case T110(_) => T110(info)
    case T300(_) => T300(info)
    case T31X(_) => T31X(info)
  }

  /** `ChildDeviceResult` of the earlier hub layout: T310 and T315 are two
      variants over the same record. */
  datatype Child =
    | ChildKE100(ke100: ChildInfo)
    | ChildS200B(s200b: ChildInfo)
    | ChildT100(t100: ChildInfo)
    | ChildT110(t110: ChildInfo)
    | ChildT300(t300: ChildInfo)
    | ChildT310(t310: ChildInfo)
    | ChildT315(t315: ChildInfo)
    | ChildOther

  function ChildOfModel(model: string, info: ChildInfo): (r: Child)
    ensures r.ChildOther? <==> model !in {"KE100", "S200B", "T100", "T110", "T300", "T310", "T315"}
    ensures r.ChildT310? <==> model == "T310"
    ensures r.ChildT315? <==> model == "T315"
    ensures !r.ChildOther? ==> ChildInfoOf(r) == info
  {
    match model
    case "KE100" => ChildKE100(info)
    case "S200B" => ChildS200B(info)
    case "T100" => ChildT100(info)
    case "T110" => ChildT110(info)
    case "T300" => ChildT300(info)
    case "T310" => ChildT310(info)
    case "T315" => ChildT315(info)
    case _ => ChildOther
  }

  function ChildInfoOf(c: Child): ChildInfo
    requires !c.ChildOther?
  {
    match c
    case ChildKE100(i) => i
    case ChildS200B(i) => i
    case ChildT100(i) => i
    case ChildT110(i) => i
    case ChildT300(i) => i
    case ChildT310(i) => i
    case ChildT315(i) => i
  }

  /** Every known variant is read back from its own tag. */
  lemma ChildModelRoundTrip(c: Child)
    requires !c.ChildOther?
    ensures ChildOfModel(ModelOf(c), ChildInfoOf(c)) == c
  {
  }

  /** `ChildDeviceResult::decode`: same variant, decoded payload. */
  function DecodeChild(c: Child): (r: Result<Child, DecodeError>)
    ensures c.ChildOther? ==> r == Ok(ChildOther)
    ensures !c.ChildOther? ==> (r.Ok? <==> Decode(ChildInfoOf(c)).Ok?)
    ensures !c.ChildOther? && r.Ok? ==>
      !r.value.ChildOther? && ModelOf(r.value) == ModelOf(c) &&
      ChildInfoOf(r.value) == Decode(ChildInfoOf(c)).value
    ensures r.Err? ==> !c.ChildOther? && r.error == Decode(ChildInfoOf(c)).error
  {
    match c
    case ChildKE100(i) => var d :- Decode(i); Ok(ChildKE100(d))
    case ChildS200B(i) => var d :- Decode(i); Ok(ChildS200B(d))
    case ChildT100(i) => var d :- Decode(i); Ok(ChildT100(d))
    case ChildT110(i) => var d :- Decode(i); Ok(ChildT110(d))
    case ChildT300(i) => var d :- Decode(i); Ok(ChildT300(d))
    case ChildT310(i) => var d :- Decode(i); Ok(ChildT310(d))
    case ChildT315(i) => var d :- Decode(i); Ok(ChildT315(d))
    case ChildOther => Ok(ChildOther)
  }

  function ModelOf(c: Child): string
    requires !c.ChildOther?
  {
    match c
    case ChildKE100(_) => "KE100"
    case ChildS200B(_) => "S200B"
    case ChildT100(_) => "T100"
    case ChildT110(_) => "T110"
    case ChildT300(_) => "T300"
    case ChildT310(_) => "T310"
    case ChildT315(_) => "T315"
  }

  /** `ChildDeviceListResult::decode`. */
  function DecodeChildList(devices: seq<Child>): (r: Result<seq<Child>, DecodeError>)
    ensures r == DecodeAll(devices, DecodeChild)
    ensures r.Ok? ==> |r.value| == |devices|
    ensures r.Ok? ==> forall i :: 0 <= i < |devices| ==> (r.value[i].ChildOther? <==> devices[i].ChildOther?)
  {
    DecodeAll(devices, DecodeChild)
  }

  /** `ChildDeviceResult` of the first crate: S200B, T100, T110, T310,
      T315 and `Other`. */
  datatype SensorChild =
    | SensorS200B(s200b: ChildInfo)
    | SensorT100(t100: ChildInfo)
    | SensorT110(t110: ChildInfo)
    | SensorT310(t310: ChildInfo)
    | SensorT315(t315: ChildInfo)
    | SensorOther

  function SensorChildOfModel(model: string, info: ChildInfo): (r: SensorChild)
    ensures r.SensorOther? <==> model !in {"S200B", "T100", "T110", "T310", "T315"}
    ensures !r.SensorOther? ==> SensorInfo(r) == info
  {
    match model
    case "S200B" => SensorS200B(info)
    case "T100" => SensorT100(info)
    case "T110" => SensorT110(info)
    case "T310" => SensorT310(info)
    case "T315" => SensorT315(info)
    case _ => SensorOther
  }

  function SensorInfo(c: SensorChild): ChildInfo
    requires !c.SensorOther?
  {
    match c
    case SensorS200B(i) => i
    case SensorT100(i) => i
    case SensorT110(i) => i
    case SensorT310(i) => i
    case SensorT315(i) => i
  }

  function SensorModel(c: SensorChild): string
    requires !c.SensorOther?
  {
    match c
    case SensorS200B(_) => "S200B"
    case SensorT100(_) => "T100"
    case SensorT110(_) => "T110"
    case SensorT310(_) => "T310"
    case SensorT315(_) => "T315"
  }

  lemma SensorModelRoundTrip(c: SensorChild)
    requires !c.SensorOther?
    ensures SensorChildOfModel(SensorModel(c), SensorInfo(c)) == c
  {
  }

  /** The first crate's `ChildDeviceResult::decode`. */
  function DecodeSensorChild(c: SensorChild): (r: Result<SensorChild, DecodeError>)
    ensures c.SensorOther? ==> r == Ok(SensorOther)
    ensures !c.SensorOther? ==> (r.Ok? <==> Decode(SensorInfo(c)).Ok?)
    ensures !c.SensorOther? && r.Ok? ==>
      !r.value.SensorOther? && SensorModel(r.value) == SensorModel(c) &&
      SensorInfo(r.value) == Decode(SensorInfo(c)).value
    ensures r.Err? ==> !c.SensorOther? && r.error == Decode(SensorInfo(c)).error
  {
    match c
    case SensorS200B(i) => var d :- Decode(i); Ok(SensorS200B(d))
    case SensorT100(i) => var d :- Decode(i); Ok(SensorT100(d))
    case SensorT110(i) => var d :- Decode(i); Ok(SensorT110(d))
    case SensorT310(i) => var d :- Decode(i); Ok(SensorT310(d))
    case SensorT315(i) => var d :- Decode(i); Ok(SensorT315(d))
    case SensorOther => Ok(SensorOther)
  }

  /** The first crate's `ChildDeviceListResult::decode`. */
  function DecodeSensorList(devices: seq<SensorChild>): (r: Result<seq<SensorChild>, DecodeError>)
    ensures r == DecodeAll(devices, DecodeSensorChild)
    ensures r.Ok? ==> |r.value| == |devices|
    ensures r.Ok? ==> forall i :: 0 <= i < |devices| ==> (r.value[i].SensorOther? <==> devices[i].SensorOther?)
  {
    DecodeAll(devices, DecodeSensorChild)
  }

  /** One child whose nickname is not base64 fails the whole list, with
      that child's error. */
  lemma OneBadChildFailsList(devices: seq<HubChild>, i: int)
    requires 0 <= i < |devices| && DecodeHubChild(devices[i]).Err?
    ensures DecodeHubList(devices).Err?
  {
  }
}
