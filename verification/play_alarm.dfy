/** The hub's `play_alarm` parameters: ringtone, volume and duration, a
    validating constructor and the serialisation that omits defaults. */
module PlayAlarm {
  import opened Wrappers
  import opened Bytes
  import opened Errors
  import opened Json

  datatype AlarmVolume = Default | Mute | Low | Normal | High

  datatype AlarmRingtone =
    | DefaultRingtone
    | Alarm1 | Alarm2 | Alarm3 | Alarm4 | Alarm5
    | Connection1 | Connection2
    | DoorbellRing1 | DoorbellRing2 | DoorbellRing3 | DoorbellRing4 | DoorbellRing5
    | DoorbellRing6 | DoorbellRing7 | DoorbellRing8 | DoorbellRing9 | DoorbellRing10
    | DrippingTap | PhoneRing

  datatype AlarmDuration = Continuous | Once | Seconds(seconds: u32)

  /** The lowercase serde names of the volumes. */
  function VolumeName(v: AlarmVolume): (r: string)
    ensures |r| > 0 && 'a' <= r[0] <= 'z'
  {
    match v
    case Default => "default"
    case Mute => "mute"
    case Low => "low"
    case Normal => "normal"
    case High => "high"
  }

  /** The ringtones' serde names: the spaced form, "Doorbell Ring 1" and so on. */
  function RingtoneName(t: AlarmRingtone): (r: string)
    ensures |r| > 0 && 'A' <= r[0] <= 'Z'
  {
    match t
    case DefaultRingtone => "Default"
    case Alarm1 => "Alarm 1"
    case Alarm2 => "Alarm 2"
    case Alarm3 => "Alarm 3"
    case Alarm4 => "Alarm 4"
    case Alarm5 => "Alarm 5"
    case Connection1 => "Connection 1"
    case Connection2 => "Connection 2"
    case DoorbellRing1 => "Doorbell Ring 1"
    case DoorbellRing2 => "Doorbell Ring 2"
    case DoorbellRing3 => "Doorbell Ring 3"
    case DoorbellRing4 => "Doorbell Ring 4"
    case DoorbellRing5 => "Doorbell Ring 5"
    case DoorbellRing6 => "Doorbell Ring 6"
    case DoorbellRing7 => "Doorbell Ring 7"
    case DoorbellRing8 => "Doorbell Ring 8"
    case DoorbellRing9 => "Doorbell Ring 9"
    case DoorbellRing10 => "Doorbell Ring 10"
    case DrippingTap => "Dripping Tap"
    case PhoneRing => "Phone Ring"
  }

  /** The device's reading of a volume name: the inverse of `VolumeName`. */
  function ParseVolume(s: string): (r: Option<AlarmVolume>)
    ensures r.Some? ==> VolumeName(r.value) == s
  {
    if s == "default" then Some(Default)
    else if s == "mute" then Some(Mute)
    else if s == "low" then Some(Low)
    else if s == "normal" then Some(Normal)
    else if s == "high" then Some(High)
    else None
  }

  /** Every volume's name reads back as that volume. */
  lemma VolumeNameRoundTrip(v: AlarmVolume)
    ensures ParseVolume(VolumeName(v)) == Some(v)
  {
  }

  /** Distinct volumes are sent under distinct names. */
  lemma VolumeNameInjective(a: AlarmVolume, b: AlarmVolume)
    ensures VolumeName(a) == VolumeName(b) ==> a == b
  {
    VolumeNameRoundTrip(a);
    VolumeNameRoundTrip(b);
  }

  /** The device's reading of a ringtone name: the inverse of `RingtoneName`. */
  function ParseRingtone(s: string): (r: Option<AlarmRingtone>)
    ensures r.Some? ==> RingtoneName(r.value) == s
  {
    if s == "Default" then Some(DefaultRingtone)
    else if s == "Alarm 1" then Some(Alarm1)
    else if s == "Alarm 2" then Some(Alarm2)
    else if s == "Alarm 3" then Some(Alarm3)
    else if s == "Alarm 4" then Some(Alarm4)
    else if s == "Alarm 5" then Some(Alarm5)
    else if s == "Connection 1" then Some(Connection1)
    else if s == "Connection 2" then Some(Connection2)
    else if s == "Doorbell Ring 1" then Some(DoorbellRing1)
    else if s == "Doorbell Ring 2" then Some(DoorbellRing2)
    else if s == "Doorbell Ring 3" then Some(DoorbellRing3)
    else if s == "Doorbell Ring 4" then Some(DoorbellRing4)
    else if s == "Doorbell Ring 5" then Some(DoorbellRing5)
    else if s == "Doorbell Ring 6" then Some(DoorbellRing6)
    else if s == "Doorbell Ring 7" then Some(DoorbellRing7)
    else if s == "Doorbell Ring 8" then Some(DoorbellRing8)
    else if s == "Doorbell Ring 9" then Some(DoorbellRing9)
    else if s == "Doorbell Ring 10" then Some(DoorbellRing10)
    else if s == "Dripping Tap" then Some(DrippingTap)
    else if s == "Phone Ring" then Some(PhoneRing)
    else None
  }

  /** Every ringtone's name reads back as that ringtone. */
  lemma RingtoneNameRoundTrip(t: AlarmRingtone)
    ensures ParseRingtone(RingtoneName(t)) == Some(t)
  {
  }

  /** Distinct ringtones are sent under distinct names. */
  lemma RingtoneNameInjective(a: AlarmRingtone, b: AlarmRingtone)
    ensures RingtoneName(a) == RingtoneName(b) ==> a == b
  {
    RingtoneNameRoundTrip(a);
    RingtoneNameRoundTrip(b);
  }

  /** `Serialize for AlarmDuration`: continuous has no value, once is 0. */
  function DurationValue(d: AlarmDuration): (r: Option<int>)
    ensures r.None? <==> d.Continuous?
    ensures d.Once? ==> r == Some(0)
    ensures d.Seconds? ==> r == Some(d.seconds)
  {
    match d
    case Continuous => None
    case Once => Some(0)
    case Seconds(n) => Some(n)
  }

  datatype Params = Params(alarmType: AlarmRingtone, alarmVolume: AlarmVolume, alarmDuration: AlarmDuration)

  const SecondsMessage := "The seconds value must be greater than zero"

  /** `validate`: only a zero-second duration is refused. */
  function Validate(p: Params): (r: Result<(), Error>)
    ensures r.Err? <==> p.alarmDuration == Seconds(0)
    ensures r.Err? ==> r.error == Validation("duration", SecondsMessage)
  {
    match p.alarmDuration
    case Seconds(0) => Err(Validation("duration", SecondsMessage))
    case _ => Ok(())
  }

  /** `new`: builds the parameters and validates them. */
  function New(ringtone: AlarmRingtone, volume: AlarmVolume, duration: AlarmDuration): (r: Result<Params, Error>)
    ensures r.Ok? <==> duration != Seconds(0)
    ensures r.Ok? ==> r.value == Params(ringtone, volume, duration)
    ensures r.Err? ==> r.error == Validation("duration", SecondsMessage)
  {
    var params := Params(ringtone, volume, duration);
    var _ :- Validate(params);
    Ok(params)
  }

  /** The value each field serialises to; `None` where serde skips it
      (the default ringtone, the default volume, a continuous duration). */
  function TypeField(p: Params): Option<Json> {
    if p.alarmType == DefaultRingtone then None else Some(JStr(RingtoneName(p.alarmType)))
  }

  function VolumeField(p: Params): Option<Json> {
    if p.alarmVolume == Default then None else Some(JStr(VolumeName(p.alarmVolume)))
  }

  function DurationField(p: Params): Option<Json> {
    if p.alarmDuration.Continuous? then None else Some(JInt(DurationValue(p.alarmDuration).value))
  }

  /** The serialised object, fields in declaration order. */
  function Payload(p: Params): Json {
    JObj(OptMember("alarm_type", TypeField(p)) + OptMember("alarm_volume", VolumeField(p))
         + OptMember("alarm_duration", DurationField(p)))
  }

  /** The three keys, in the order they are written. */
  lemma PayloadKeys(p: Params)
    ensures var m := Payload(p).members;
      var t := |OptMember("alarm_type", TypeField(p))|;
      var v := |OptMember("alarm_volume", VolumeField(p))|;
      && (forall j :: 0 <= j < t ==> m[j] == ("alarm_type", TypeField(p).value))
      && (forall j :: t <= j < t + v ==> m[j] == ("alarm_volume", VolumeField(p).value))
      && (forall j :: t + v <= j < |m| ==> m[j] == ("alarm_duration", DurationField(p).value))
  {
  }

  /** Each key of the payload holds its field's value. */
  lemma PayloadFields(p: Params)
    ensures Get(Payload(p), "alarm_type") == TypeField(p)
    ensures Get(Payload(p), "alarm_volume") == VolumeField(p)
    ensures Get(Payload(p), "alarm_duration") == DurationField(p)
  {
    PayloadKeys(p);
    var m := Payload(p).members;
    var t := |OptMember("alarm_type", TypeField(p))|;
    var v := |OptMember("alarm_volume", VolumeField(p))|;
    if TypeField(p).Some? {
      LookupLast(m, "alarm_type", 0);
    } else {
      LookupAbsent(m, "alarm_type");
    }
    if VolumeField(p).Some? {
      LookupLast(m, "alarm_volume", t);
    } else {
      LookupAbsent(m, "alarm_volume");
    }
    if DurationField(p).Some? {
      LookupLast(m, "alarm_duration", t + v);
    } else {
      LookupAbsent(m, "alarm_duration");
    }
  }

  /** No other key appears. */
  lemma PayloadHasNoOtherKey(p: Params, key: string)
    requires key != "alarm_type" && key != "alarm_volume" && key != "alarm_duration"
    ensures Get(Payload(p), key).None?
  {
    PayloadKeys(p);
    LookupAbsent(Payload(p).members, key);
  }

  /** The fully specified example: all three fields, in order. */
  lemma PayloadExample()
    ensures New(DoorbellRing1, Normal, Seconds(1)).Ok?
    ensures Payload(New(DoorbellRing1, Normal, Seconds(1)).value).members ==
      [("alarm_type", JStr("Doorbell Ring 1")), ("alarm_volume", JStr("normal")), ("alarm_duration", JInt(1))]
  {
  }

  /** All defaults give the empty object. */
  lemma DefaultsOmitted()
    ensures Payload(Params(DefaultRingtone, Default, Continuous)) == JObj([])
  {
  }
}
