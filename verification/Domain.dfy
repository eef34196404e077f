/** Types shared by the gateway runtime: commands, anomalies, sensors and the
    64-bit arithmetic that Go's durations use. */
module Domain {

  datatype Option<+T> = None | Some(value: T)

  /** Nanoseconds. Instant 0 is the zero time that `IsZero` recognises. */
  type Instant = int

  function Min(a: nat, b: nat): nat {
    if a <= b then a else b
  }

  const SECOND: int := 1_000_000_000
  const MILLISECOND: int := 1_000_000
  const INT64_LIMIT: int := 0x8000_0000_0000_0000

  /** Two's complement wrap-around of a 64-bit signed product. */
  function WrapInt64(x: int): (r: int)
    ensures -INT64_LIMIT <= r < INT64_LIMIT
    ensures -INT64_LIMIT <= x < INT64_LIMIT ==> r == x
  {
    (x + INT64_LIMIT) % (2 * INT64_LIMIT) - INT64_LIMIT
  }

  datatype Status = Provisioning | Online | Offline | Paused | OtherStatus(name: string)

  /** A live configuration change; either part may be absent. */
  datatype ConfigUpdate = ConfigUpdate(freq: Option<int>, status: Option<Status>)

  /** The command payload after decoding; None is a payload that does not decode. */
  datatype Body =
    | Configure(update: Option<ConfigUpdate>)
    | PushFirmware(version: Option<string>)
    | UnknownType

  datatype Command = Command(id: string, body: Body, issuedAt: Instant)

  datatype AckStatus = Ack | Nack

  datatype AnomalyKind = NetworkDegradation | Disconnect | OtherKind(name: string)

  datatype Degradation = Degradation(seconds: int, loss: real)

  datatype AnomalyCommand = AnomalyCommand(
    kind: AnomalyKind,
    degradation: Option<Degradation>,
    disconnectSeconds: Option<int>)

  datatype Algorithm = UniformRandom | SineWave | Spike | Constant

  datatype Sensor = Sensor(id: string, min: real, max: real, algorithm: Algorithm)

  datatype OutlierCommand = OutlierCommand(sensor: string, value: Option<real>)

  // ----- how many entries a map has -----

  lemma MapGrown<K, V>(m: map<K, V>, k: K, v: V)
    requires k !in m
    ensures |m[k := v]| == |m| + 1
  {
    assert m[k := v].Keys == m.Keys + {k};
    assert |m[k := v].Keys| == |m.Keys| + 1;
  }

  lemma MapReplaced<K, V>(m: map<K, V>, k: K, v: V)
    requires k in m
    ensures |m[k := v]| == |m|
  {
    assert m[k := v].Keys == m.Keys;
    assert |m[k := v].Keys| == |m.Keys|;
  }

  lemma MapShrunk<K, V>(m: map<K, V>, k: K)
    requires k in m
    ensures |m - {k}| == |m| - 1
  {
    assert (m - {k}).Keys == m.Keys - {k};
    assert |(m - {k}).Keys| == |m.Keys| - 1;
  }
}
