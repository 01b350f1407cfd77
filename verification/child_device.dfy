/** What the child-device list decoders share: the status enum, the
    record of a child as far as the client looks into it, the decoding of
    its base64 nickname, and the all-or-nothing decoding of a list. */
module ChildDevice {
  import opened Wrappers
  import opened Json
  import opened Decoding

  /** `Status`, serialised in camelCase. */
  datatype Status = Online | Offline

  function StatusName(s: Status): string {
    match s
    case Online => "online"
    case Offline => "offline"
  }

  function ParseStatus(t: string): Option<Status> {
    if t == "online" then Some(Online)
    else if t == "offline" then Some(Offline)
    else None
  }

  /** The two names are each other's inverse, and only they parse. */
  lemma StatusRoundTrip(s: Status, t: string)
    ensures ParseStatus(t) == Some(s) <==> t == StatusName(s)
  {
  }

  /** A hub child (`KE100Result`, `S200Result`, `T31XResult`, ...): its id,
      its nickname as sent (base64), its status, and every other field,
      carried unchanged. */
  datatype ChildInfo = ChildInfo(deviceId: string, nickname: string, status: Status, fields: Json)

  /** A child's `decode`: the nickname is replaced by its decoded text and
      nothing else changes; a nickname that does not decode fails it. */
  function Decode(c: ChildInfo): (r: Result<ChildInfo, DecodeError>)
    ensures r.Ok? <==> DecodeValue(c.nickname).Ok?
    ensures r.Err? ==> r.error == DecodeValue(c.nickname).error
    ensures r.Ok? ==> r.value.deviceId == c.deviceId && r.value.status == c.status && r.value.fields == c.fields
    ensures r.Ok? ==> c.nickname == EncodeValue(r.value.nickname)
  {
    match DecodeValue(c.nickname)
    case Ok(name) =>
      DecodeValueIsInverse(c.nickname, name);
      Ok(c.(nickname := name))
    case Err(e) => Err(e)
  }

  /** A child whose nickname is the device's encoding of `name` decodes to
      the same child named `name`. */
  lemma DecodeEncoded(c: ChildInfo, name: string)
    ensures Decode(c.(nickname := EncodeValue(name))) == Ok(c.(nickname := name))
  {
    DecodeValueIsInverse(EncodeValue(name), name);
  }

  /** Every element before `i` decodes. */
  predicate DecodesBefore<T>(xs: seq<T>, f: T -> Result<T, DecodeError>, i: int)
    requires 0 <= i <= |xs|
  {
    forall j :: 0 <= j < i ==> f(xs[j]).Ok?
  }

  /** `map(decode).collect::<Result<Vec<_>, _>>()`: every element decoded in
      order, or the error of the first element that fails. */
  function DecodeAll<T>(xs: seq<T>, f: T -> Result<T, DecodeError>): (r: Result<seq<T>, DecodeError>)
    ensures r.Ok? <==> forall i :: 0 <= i < |xs| ==> f(xs[i]).Ok?
    ensures r.Ok? ==> |r.value| == |xs|
    ensures r.Ok? ==> forall i :: 0 <= i < |xs| ==> f(xs[i]) == Ok(r.value[i])
    ensures r.Err? ==> exists i :: 0 <= i < |xs| && f(xs[i]) == Err(r.error) && DecodesBefore(xs, f, i)
    decreases |xs|
  {
    if |xs| == 0 then Ok([])
    else
      var head :- f(xs[0]);
      var tail :- DecodeAll(xs[1..], f);
      assert forall i :: 1 <= i < |xs| ==> xs[i] == xs[1..][i - 1];
      Ok([head] + tail)
  }
}
