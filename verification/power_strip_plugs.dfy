/** The child plugs of the P300/P304/P316 power strips and the decoding of
    their list: each plug's nickname is decoded, nothing else changes, and
    one bad nickname fails the list. */
module PowerStripPlugs {
  import opened Wrappers
  import opened Bytes
  import opened Json
  import opened Decoding
  import opened ChildDevice

  /** `AutoOffStatus`, serialised in camelCase. */
  datatype AutoOffStatus = On | Off

  function AutoOffName(s: AutoOffStatus): string {
    match s
    case On => "on"
    case Off => "off"
  }

  function ParseAutoOff(t: string): Option<AutoOffStatus> {
    if t == "on" then Some(On) else if t == "off" then Some(Off) else None
  }

  lemma AutoOffRoundTrip(s: AutoOffStatus, t: string)
    ensures ParseAutoOff(t) == Some(s) <==> t == AutoOffName(s)
  {
  }

  /** A child plug (`PlugPowerStripResult`, `PowerStripPlugResult`,
      `PowerStripPlugEnergyMonitoringResult`): the fields the client looks
      at, and every other field carried unchanged. */
  datatype Plug = Plug(deviceId: string, nickname: string, position: byte, autoOffStatus: AutoOffStatus, fields: Json)

  /** A plug's `decode`: only the nickname changes. */
  function DecodePlug(p: Plug): (r: Result<Plug, DecodeError>)
    ensures r.Ok? <==> DecodeValue(p.nickname).Ok?
    ensures r.Err? ==> r.error == DecodeValue(p.nickname).error
    ensures r.Ok? ==> r.value.(nickname := p.nickname) == p
    ensures r.Ok? ==> p.nickname == EncodeValue(r.value.nickname)
  {
    match DecodeValue(p.nickname)
    case Ok(name) =>
      DecodeValueIsInverse(p.nickname, name);
      Ok(p.(nickname := name))
    case Err(e) => Err(e)
  }

  /** A plug named with the device's encoding of `name` decodes to `name`. */
  lemma DecodePlugEncoded(p: Plug, name: string)
    ensures DecodePlug(p.(nickname := EncodeValue(name))) == Ok(p.(nickname := name))
  {
    DecodeValueIsInverse(EncodeValue(name), name);
  }

  /** The list `decode` of all three power-strip results. */
  function DecodePlugs(plugs: seq<Plug>): (r: Result<seq<Plug>, DecodeError>)
    ensures r == DecodeAll(plugs, DecodePlug)
    ensures r.Ok? ==> |r.value| == |plugs|
    ensures r.Ok? ==> forall i :: 0 <= i < |plugs| ==> r.value[i].(nickname := plugs[i].nickname) == plugs[i]
  {
    DecodeAll(plugs, DecodePlug)
  }

  /** Decoding keeps ids and positions, so a plug found by id or position
      before decoding is found at the same place after it. */
  lemma {:induction false} DecodePlugsKeepsKeys(plugs: seq<Plug>)
    requires DecodePlugs(plugs).Ok?
    ensures forall i :: 0 <= i < |plugs| ==>
      DecodePlugs(plugs).value[i].deviceId == plugs[i].deviceId &&
      DecodePlugs(plugs).value[i].position == plugs[i].position
  {
    var out := DecodePlugs(plugs).value;
    forall i | 0 <= i < |plugs|
      ensures out[i].deviceId == plugs[i].deviceId && out[i].position == plugs[i].position
    {
      assert out[i].(nickname := plugs[i].nickname) == plugs[i];
    }
  }
}
