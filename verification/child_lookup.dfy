/** Finding a child device in a fetched list: the hub's lookup by id or
    nickname within one device kind, the power strips' lookup by id,
    nickname or position, and the identifier precedence of the Python
    bindings. Each lookup takes the first match. */
module ChildLookup {
  import opened Wrappers
  import opened Bytes
  import opened Errors
  import opened ChildDevice
  import opened ChildDeviceLists
  import PowerStripPlugs
  import PlayAlarm

  /** The index of the first element satisfying `p`, if any (`iter().find`,
      `filter_map(..).next()`). */
  function FirstIndex<T>(xs: seq<T>, p: T -> bool): (r: Option<nat>)
    ensures r.Some? ==> r.value < |xs| && p(xs[r.value])
    ensures r.Some? ==> forall j :: 0 <= j < r.value ==> !p(xs[j])
    ensures r.None? ==> forall j :: 0 <= j < |xs| ==> !p(xs[j])
    decreases |xs|
  {
    if |xs| == 0 then None
    else if p(xs[0]) then Some(0)
    else
      var rest := FirstIndex(xs[1..], p);
      assert forall j :: 1 <= j < |xs| ==> xs[j] == xs[1..][j - 1];
      if rest.Some? then Some(rest.value + 1) else None
  }

  /** `HubDevice`. */
  datatype HubDevice = ByDeviceId(deviceId: string) | ByNickname(nickname: string)

  /** A child of kind `model` (the tag of one `ChildDeviceHubResult`
      variant) that the identifier names. */
  predicate HubMatches(c: Child, identifier: HubDevice, model: string) {
    !c.ChildOther? && ModelOf(c) == model &&
    match identifier
    case ByDeviceId(id) => ChildInfoOf(c).deviceId == id
    case ByNickname(name) => ChildInfoOf(c).nickname == name
  }

  /** `get_device_id!`: the child list is fetched on every call; the id of
      the first child of the requested kind that the identifier names, or
      `DeviceNotFound`. */
  function HubDeviceId(fetched: Result<seq<Child>, Error>, identifier: HubDevice, model: string): (r: Result<string, Error>)
    ensures fetched.Err? ==> r == Err(fetched.error)
    ensures fetched.Ok? && r.Err? ==> r.error == DeviceNotFound
    ensures fetched.Ok? ==> (r.Ok? <==> exists i :: 0 <= i < |fetched.value| && HubMatches(fetched.value[i], identifier, model))
  {
    var children :- fetched;
    var i := FirstIndex(children, c => HubMatches(c, identifier, model));
    if i.Some? then Ok(ChildInfoOf(children[i.value]).deviceId) else Err(DeviceNotFound)
  }

  /** The id found is that of the first child of the requested kind the
      identifier names; no earlier child qualifies. */
  lemma HubDeviceIdIsFirstMatch(children: seq<Child>, identifier: HubDevice, model: string, i: nat)
    requires i < |children| && HubMatches(children[i], identifier, model)
    requires forall j :: 0 <= j < i ==> !HubMatches(children[j], identifier, model)
    ensures HubDeviceId(Ok(children), identifier, model) == Ok(ChildInfoOf(children[i]).deviceId)
  {
    var k := FirstIndex(children, c => HubMatches(c, identifier, model));
    assert k.Some?;
  }

  /** A child of another kind is never selected, even if its id matches. */
  lemma HubLookupIgnoresOtherKinds(info: ChildInfo, other: Child, model: string)
    requires !other.ChildOther? && ModelOf(other) != model
    ensures HubDeviceId(Ok([other]), ByDeviceId(ChildInfoOf(other).deviceId), model) == Err(DeviceNotFound)
  {
  }

  /** `PlugIdentifier` and `Plug`: how a power-strip socket is named. */
  datatype PlugIdentifier = PlugById(deviceId: string) | PlugByNickname(nickname: string) | PlugByPosition(position: byte)

  predicate PlugMatches(p: PowerStripPlugs.Plug, identifier: PlugIdentifier) {
    match identifier
    case PlugById(id) => p.deviceId == id
    case PlugByNickname(name) => p.nickname == name
    case PlugByPosition(pos) => p.position == pos
  }

  /** The id of the first plug the identifier names, or `DeviceNotFound`. */
  function FindPlugId(plugs: seq<PowerStripPlugs.Plug>, identifier: PlugIdentifier): (r: Result<string, Error>)
    ensures r.Err? ==> r.error == DeviceNotFound
    ensures r.Ok? <==> exists i :: 0 <= i < |plugs| && PlugMatches(plugs[i], identifier)
    ensures r.Ok? ==> exists i :: (0 <= i < |plugs| && PlugMatches(plugs[i], identifier) && plugs[i].deviceId == r.value &&
                                   forall j :: 0 <= j < i ==> !PlugMatches(plugs[j], identifier))
  {
    var i := FirstIndex(plugs, p => PlugMatches(p, identifier));
    if i.Some? then Ok(plugs[i.value].deviceId) else Err(DeviceNotFound)
  }

  /** `PowerStripHandler::plug` (P300, P306): an id is used as given, without
      fetching the list; a nickname or a position is looked up in the list. */
  function PowerStripPlugId(identifier: PlugIdentifier, fetch: Result<seq<PowerStripPlugs.Plug>, Error>): (r: Result<string, Error>)
    ensures identifier.PlugById? ==> r == Ok(identifier.deviceId)
    ensures !identifier.PlugById? && fetch.Err? ==> r == Err(fetch.error)
    ensures !identifier.PlugById? && fetch.Ok? ==> r == FindPlugId(fetch.value, identifier)
  {
    if identifier.PlugById? then Ok(identifier.deviceId)
    else
      var plugs :- fetch;
      FindPlugId(plugs, identifier)
  }

  /** `PowerStripEnergyMonitoringHandler::plug` (P304M, P316M): the list is
      always fetched, and even an id must name one of its plugs. */
  function EnergyMonitoringPlugId(identifier: PlugIdentifier, fetch: Result<seq<PowerStripPlugs.Plug>, Error>): (r: Result<string, Error>)
    ensures fetch.Err? ==> r == Err(fetch.error)
    ensures fetch.Ok? ==> r == FindPlugId(fetch.value, identifier)
  {
    var plugs :- fetch;
    FindPlugId(plugs, identifier)
  }

  /** The two power strips resolve a nickname or a position alike; they
      differ on an id, which only the P304M checks against the list. */
  lemma PowerStripsAgree(identifier: PlugIdentifier, plugs: seq<PowerStripPlugs.Plug>)
    ensures !identifier.PlugById? ==> PowerStripPlugId(identifier, Ok(plugs)) == EnergyMonitoringPlugId(identifier, Ok(plugs))
    ensures identifier.PlugById? ==>
      (EnergyMonitoringPlugId(identifier, Ok(plugs)).Ok? <==> exists i :: 0 <= i < |plugs| && plugs[i].deviceId == identifier.deviceId)
    ensures identifier.PlugById? && EnergyMonitoringPlugId(identifier, Ok(plugs)).Ok? ==>
      EnergyMonitoringPlugId(identifier, Ok(plugs)) == PowerStripPlugId(identifier, Ok(plugs))
  {
  }

  /** The Python hub handler's `parse_identifier`: an id wins over a
      nickname; neither is a validation error on `identifier`. */
  function ParseHubIdentifier(deviceId: Option<string>, nickname: Option<string>): (r: Result<HubDevice, Error>)
    ensures deviceId.Some? ==> r == Ok(ByDeviceId(deviceId.value))
    ensures deviceId.None? && nickname.Some? ==> r == Ok(ByNickname(nickname.value))
    ensures r.Err? <==> deviceId.None? && nickname.None?
    ensures r.Err? ==> r.error.Validation? && r.error.field == "identifier"
  {
    match (deviceId, nickname)
    case (Some(id), _) => Ok(ByDeviceId(id))
    case (None, Some(name)) => Ok(ByNickname(name))
    case _ => Err(Validation("identifier", "Either a device_id or nickname must be provided"))
  }

  /** The Python power-strip handlers' `parse_identifier`: id, then
      nickname, then position. */
  function ParsePlugIdentifier(deviceId: Option<string>, nickname: Option<string>, position: Option<byte>): (r: Result<PlugIdentifier, Error>)
    ensures deviceId.Some? ==> r == Ok(PlugById(deviceId.value))
    ensures deviceId.None? && nickname.Some? ==> r == Ok(PlugByNickname(nickname.value))
    ensures deviceId.None? && nickname.None? && position.Some? ==> r == Ok(PlugByPosition(position.value))
    ensures r.Err? <==> deviceId.None? && nickname.None? && position.None?
    ensures r.Err? ==> r.error.Validation? && r.error.field == "identifier"
  {
    match (deviceId, nickname, position)
    case (Some(id), _, _) => Ok(PlugById(id))
    case (None, Some(name), _) => Ok(PlugByNickname(name))
    case (None, None, Some(pos)) => Ok(PlugByPosition(pos))
    case _ => Err(Validation("identifier", "Either a device_id, nickname, or position must be provided"))
  }

  /** Whatever identifier the Python side parses is the one that names the
      child: parsing never invents a value, and the power strips' parse
      keeps the hub's precedence on id and nickname. */
  lemma ParseAgrees(deviceId: Option<string>, nickname: Option<string>, position: Option<byte>)
    ensures ParseHubIdentifier(deviceId, nickname).Ok? ==>
      ParsePlugIdentifier(deviceId, nickname, position).Ok? &&
      (ParseHubIdentifier(deviceId, nickname).value.ByDeviceId? <==> ParsePlugIdentifier(deviceId, nickname, position).value.PlugById?)
  {
  }

  /** `PyAlarmDuration`: the duration kinds offered to Python, with the
      seconds given separately. */
  datatype PyAlarmDuration = PyContinuous | PyOnce | PySeconds

  /** The Python `play_alarm` mapping: `Seconds` needs a seconds value;
      the other kinds ignore it. */
  function AlarmDurationOf(duration: PyAlarmDuration, seconds: Option<u32>): (r: Result<PlayAlarm.AlarmDuration, Error>)
    ensures r.Err? <==> duration == PySeconds && seconds.None?
    ensures r.Err? ==> r.error.Validation? && r.error.field == "seconds"
    ensures duration == PyContinuous ==> r == Ok(PlayAlarm.Continuous)
    ensures duration == PyOnce ==> r == Ok(PlayAlarm.Once)
    ensures duration == PySeconds && seconds.Some? ==> r == Ok(PlayAlarm.Seconds(seconds.value))
  {
    match duration
    case PyContinuous => Ok(PlayAlarm.Continuous)
    case PyOnce => Ok(PlayAlarm.Once)
    case PySeconds =>
      if seconds.Some? then Ok(PlayAlarm.Seconds(seconds.value))
      else Err(Validation("seconds", "A value must be provided for seconds when duration = AlarmDuration.Seconds"))
  }

  /** Seconds set to 0 pass the mapping and are then refused by
      `PlayAlarmParams::new`, on field `duration`. */
  lemma ZeroSecondsRejectedLater(ringtone: PlayAlarm.AlarmRingtone, volume: PlayAlarm.AlarmVolume)
    ensures AlarmDurationOf(PySeconds, Some(0)) == Ok(PlayAlarm.Seconds(0))
    ensures PlayAlarm.New(ringtone, volume, PlayAlarm.Seconds(0)).Err?
  {
  }

  /** The Python hub's `get_child_device_list`: each supported child in
      place, every other child as a `None` placeholder. */
  function ChildListForPython(children: seq<Child>): (r: seq<Option<Child>>)
    ensures |r| == |children|
    ensures forall i :: 0 <= i < |children| ==> (r[i].None? <==> children[i].ChildOther?)
    ensures forall i :: 0 <= i < |children| ==> r[i].Some? ==> r[i].value == children[i]
  {
    seq(|children|, i requires 0 <= i < |children| => if children[i].ChildOther? then None else Some(children[i]))
  }
}
