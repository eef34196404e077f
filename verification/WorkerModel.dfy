/** The gateway worker as a state machine: one step per iteration of its
    `sensorLoop` select, plus the non-blocking sends of its clients. */
module WorkerModel {
  import opened Domain
  import opened Generators

  const CAPACITY: nat := 10

  /** Every frequency up to this one has a ticker period that fits 64 bits. */
  const MAX_FREQUENCY: int := 9_223_372_036_854

  datatype Active = Active(kind: AnomalyKind, expiresAt: Instant, loss: real)

  /** The gateway's row in the store, as far as the worker writes it. */
  datatype Row = Row(freq: int, status: Status, firmware: string)

  /** The outcome of one telemetry attempt: the generator's draws, whether
      marshalling and encryption succeed, and the packet-loss roll. */
  datatype Roll = Roll(draw: Draw, isSealed: bool, loss: real)

  /** Answers of the outside world, indexed by call count: any failure pattern
      is some environment. */
  datatype Environment = Environment(storeFails: nat -> bool, roll: nat -> Roll)

  /** What the worker did, in order. `Replied` and `Buffered` record the anomaly
      (and status) in force at that moment. */
  datatype Output =
    | Replied(cmd: Command, status: AckStatus, under: Option<Active>)
    | Armed(sensor: nat, value: real)
    | Emitted(sensor: nat, value: real, base: real)
    | Buffered(sensor: nat, value: real, under: Option<Active>, gateway: Status)

  /** A positive frequency that was written to the store, to configCh, or both. */
  datatype FrequencyWrite = FrequencyWrite(freq: int, stored: bool, queued: bool)

  /** `log` and `writes` are history: no step reads them. */
  datatype State = State(
    freq: int,
    status: Status,
    active: Option<Active>,
    held: seq<Command>,
    commandCh: seq<Command>,
    anomalyCh: seq<AnomalyCommand>,
    outlierCh: seq<OutlierCommand>,
    configCh: seq<ConfigUpdate>,
    sensors: seq<Sensor>,
    overrides: seq<Option<real>>,
    ticker: Option<int>,
    configLive: bool,
    panicked: bool,
    row: Row,
    storeCalls: nat,
    emissions: nat,
    log: seq<Output>,
    writes: seq<FrequencyWrite>)

  /** Sensors and generators are two slices aligned by index. */
  type Worker = s: State | |s.overrides| == |s.sensors|
    witness Idle(Row(1, Online, ""), [])

  function Idle(row: Row, sensors: seq<Sensor>): State {
    State(row.freq, row.status, None, [], [], [], [], [], sensors, seq(|sensors|, i => None),
          None, false, false, row, 0, 0, [], [])
  }

  // ----- ticker -----

  function TickerPeriod(freq: int): int {
    WrapInt64(freq * MILLISECOND)
  }

  /** `NewTicker` and `Reset` panic on a period that is not positive. */
  function SetTicker(s: Worker, freq: int): Worker {
    var period := TickerPeriod(freq);
    s.(freq := freq, ticker := Some(period), panicked := s.panicked || period <= 0)
  }

  /** A worker whose loop has just been entered. */
  function Started(row: Row, sensors: seq<Sensor>): Worker {
    var s := Idle(row, sensors);
    if row.freq > 0 then SetTicker(s, row.freq) else s.(configLive := true)
  }

  // ----- draining the control channels -----

  function ApplyConfig(s: Worker, u: ConfigUpdate): Worker {
    if u.freq.Some? && u.freq.value <= 0 then s
    else
      var t := if u.freq.Some? then SetTicker(s, u.freq.value) else s;
      if u.status.Some? then t.(status := u.status.value) else t
  }

  function DrainConfig(s: Worker): Worker {
    if s.configCh == [] then s
    else ApplyConfig(s.(configCh := s.configCh[1..]), s.configCh[0])
  }

  function StartAnomaly(cmd: AnomalyCommand, now: Instant): Active {
    match cmd.kind
    case NetworkDegradation =>
      if cmd.degradation.Some? then
        var d := cmd.degradation.value;
        Active(cmd.kind, now + WrapInt64(d.seconds * SECOND), if d.loss > 1.0 then d.loss / 100.0 else d.loss)
      else Active(cmd.kind, 0, 0.0)
    case Disconnect =>
      if cmd.disconnectSeconds.Some? then
        Active(cmd.kind, now + WrapInt64(cmd.disconnectSeconds.value * SECOND), 0.0)
      else Active(cmd.kind, 0, 0.0)
    case OtherKind(_) => Active(cmd.kind, 0, 0.0)
  }

  function DrainAnomaly(s: Worker, now: Instant): Worker {
    if s.anomalyCh == [] then s
    else s.(anomalyCh := s.anomalyCh[1..], active := Some(StartAnomaly(s.anomalyCh[0], now)))
  }

  function FindSensor(sensors: seq<Sensor>, id: string): (i: nat)
    ensures i <= |sensors|
    ensures i < |sensors| ==> sensors[i].id == id
    ensures forall j :: 0 <= j < i ==> sensors[j].id != id
  {
    if sensors == [] || sensors[0].id == id then 0
    else
      assert forall j :: 0 < j < |sensors| ==> sensors[j] == sensors[1..][j - 1];
      1 + FindSensor(sensors[1..], id)
  }

  function OutlierValue(sensor: Sensor, o: OutlierCommand): real {
    if o.value.Some? then o.value.value else sensor.max * 2.0
  }

  function ArmOne(s: Worker, o: OutlierCommand): Worker {
    var i := FindSensor(s.sensors, o.sensor);
    if i == |s.sensors| then s
    else
      var v := OutlierValue(s.sensors[i], o);
      s.(overrides := s.overrides[i := Some(v)], log := s.log + [Armed(i, v)])
  }

  function ArmAll(s: Worker, outliers: seq<OutlierCommand>): Worker {
    if outliers == [] then s
    else ArmOne(ArmAll(s, outliers[..|outliers| - 1]), outliers[|outliers| - 1])
  }

  function DrainOutliers(s: Worker): Worker {
    ArmAll(s.(outlierCh := []), s.outlierCh)
  }

  function DrainControl(s: Worker, now: Instant): Worker {
    DrainOutliers(DrainAnomaly(DrainConfig(s), now))
  }

  // ----- commands -----

  /** Persists the frequency, if there is one; the flag says whether to go on. */
  function PersistFrequency(env: Environment, s: Worker, u: ConfigUpdate): (Worker, bool) {
    if u.freq.None? then (s, true)
    else if u.freq.value <= 0 then (s, false)
    else
      var t := s.(storeCalls := s.storeCalls + 1);
      if env.storeFails(s.storeCalls) then (t, false)
      else (t.(row := s.row.(freq := u.freq.value)), true)
  }

  function PersistStatus(env: Environment, s: Worker, u: ConfigUpdate): (Worker, bool) {
    if u.status.None? then (s, true)
    else
      var t := s.(storeCalls := s.storeCalls + 1);
      if env.storeFails(s.storeCalls) then (t, false)
      else (t.(row := s.row.(status := u.status.value)), true)
  }

  function NoteWrite(s: Worker, u: ConfigUpdate, stored: bool, queued: bool): Worker {
    if u.freq.Some? && u.freq.value > 0
    then s.(writes := s.writes + [FrequencyWrite(u.freq.value, stored, queued)])
    else s
  }

  /** The non-blocking send to configCh that ends an accepted update. */
  function QueueUpdate(s: Worker, u: ConfigUpdate): (Worker, AckStatus) {
    if |s.configCh| < CAPACITY
    then (NoteWrite(s.(configCh := s.configCh + [u]), u, true, true), Ack)
    else (NoteWrite(s, u, true, false), Nack)
  }

  function HandleConfig(env: Environment, s: Worker, payload: Option<ConfigUpdate>): (Worker, AckStatus) {
    if payload.None? then (s, Nack)
    else
      var u := payload.value;
      var (s1, kept) := PersistFrequency(env, s, u);
      if !kept then (s1, Nack)
      else
        var (s2, ok) := PersistStatus(env, s1, u);
        if !ok then (NoteWrite(s2, u, true, false), Nack) else QueueUpdate(s2, u)
  }

  function HandleFirmware(env: Environment, s: Worker, version: Option<string>): (Worker, AckStatus) {
    if version.None? then (s, Nack)
    else if version.value == "" then (s, Ack)
    else
      var t := s.(storeCalls := s.storeCalls + 1);
      if env.storeFails(s.storeCalls) then (t, Nack)
      else (t.(row := s.row.(firmware := version.value)), Ack)
  }

  function Process(env: Environment, s: Worker, cmd: Command): (Worker, AckStatus) {
    match cmd.body
    case Configure(update) => HandleConfig(env, s, update)
    case PushFirmware(version) => HandleFirmware(env, s, version)
    case UnknownType => (s, Nack)
  }

  function Answer(env: Environment, s: Worker, cmd: Command): Worker {
    var (t, status) := Process(env, s, cmd);
    t.(log := t.log + [Replied(cmd, status, t.active)])
  }

  function AnswerAll(env: Environment, s: Worker, cmds: seq<Command>): Worker {
    if cmds == [] then s
    else Answer(env, AnswerAll(env, s, cmds[..|cmds| - 1]), cmds[|cmds| - 1])
  }

  function FlushHeld(env: Environment, s: Worker): Worker {
    AnswerAll(env, s, s.held).(held := [])
  }

  function TakeCommand(env: Environment, s: Worker): Worker {
    if s.commandCh == [] then s
    else
      var cmd := s.commandCh[0];
      var t := s.(commandCh := s.commandCh[1..]);
      if t.active.Some? then t.(held := t.held + [cmd]) else Answer(env, t, cmd)
  }

  // ----- the tick -----

  predicate Expired(a: Active, now: Instant) {
    a.expiresAt != 0 && now >= a.expiresAt
  }

  function CheckExpiry(env: Environment, s: Worker, now: Instant): Worker {
    if s.active.Some? && Expired(s.active.value, now)
    then FlushHeld(env, s.(active := None))
    else s
  }

  predicate Silenced(active: Option<Active>, status: Status) {
    (active.Some? && active.value.kind == Disconnect) || status == Paused || status == Offline
  }

  /** What one telemetry attempt logs: the emission, and the envelope unless
      sealing it fails or network degradation loses it. */
  function EmissionOutputs(env: Environment, s: Worker, i: nat): seq<Output>
    requires i < |s.sensors|
  {
    var roll := env.roll(s.emissions);
    var base := BaseValue(s.sensors[i].algorithm, s.sensors[i].min, s.sensors[i].max, roll.draw);
    var value := if s.overrides[i].Some? then s.overrides[i].value else base;
    var isLost := s.active.Some? && s.active.value.kind == NetworkDegradation && roll.loss < s.active.value.loss;
    if !roll.isSealed || isLost then [Emitted(i, value, base)]
    else [Emitted(i, value, base), Buffered(i, value, s.active, s.status)]
  }

  function EmitOne(env: Environment, s: Worker, i: nat): Worker
    requires i < |s.sensors|
  {
    s.(overrides := s.overrides[i := None],
       emissions := s.emissions + 1,
       log := s.log + EmissionOutputs(env, s, i))
  }

  function EmitUpTo(env: Environment, s: Worker, n: nat): (t: Worker)
    requires n <= |s.sensors|
    ensures t.sensors == s.sensors
  {
    if n == 0 then s else EmitOne(env, EmitUpTo(env, s, n - 1), n - 1)
  }

  function Publish(env: Environment, s: Worker): Worker {
    if Silenced(s.active, s.status) then s else EmitUpTo(env, s, |s.sensors|)
  }

  function Tick(env: Environment, s: Worker, drainAt: Instant, checkAt: Instant): Worker {
    Publish(env, CheckExpiry(env, DrainControl(s, drainAt), checkAt))
  }

  // ----- the other inputs -----

  /** The select branch that is only live while no ticker exists. */
  function TakeConfig(s: Worker): Worker {
    if s.configCh == [] then s
    else
      var u := s.configCh[0];
      var t := s.(configCh := s.configCh[1..]);
      if u.freq.Some? && u.freq.value > 0 then SetTicker(t, u.freq.value).(configLive := false) else t
  }

  function AttachSensor(s: Worker, sensor: Sensor): Worker {
    if sensor.min >= sensor.max then s
    else s.(sensors := s.sensors + [sensor], overrides := s.overrides + [None])
  }

  /** The clock readings of a tick are those of the drain and of the expiry check. */
  datatype Event =
    | Offer(cmd: Command)
    | PutConfig(update: ConfigUpdate)
    | PutAnomaly(anomaly: AnomalyCommand)
    | PutOutlier(outlier: OutlierCommand)
    | Attach(sensor: Sensor)
    | CommandTurn
    | ConfigTurn
    | TickTurn(drainAt: Instant, checkAt: Instant)

  function Step(env: Environment, s: Worker, e: Event): Worker {
    match e
    case Offer(cmd) =>
      if |s.commandCh| < CAPACITY then s.(commandCh := s.commandCh + [cmd]) else s
    case PutConfig(u) =>
      if |s.configCh| < CAPACITY then NoteWrite(s.(configCh := s.configCh + [u]), u, false, true) else s
    case PutAnomaly(a) =>
      if |s.anomalyCh| < CAPACITY then s.(anomalyCh := s.anomalyCh + [a]) else s
    case PutOutlier(o) =>
      if |s.outlierCh| < CAPACITY then s.(outlierCh := s.outlierCh + [o]) else s
    case Attach(sensor) => AttachSensor(s, sensor)
    case CommandTurn => TakeCommand(env, s)
    case ConfigTurn => if s.configLive then TakeConfig(s) else s
    case TickTurn(drainAt, checkAt) => if s.ticker.Some? then Tick(env, s, drainAt, checkAt) else s
  }

  function Run(env: Environment, s: Worker, es: seq<Event>): Worker {
    if es == [] then s
    else Step(env, Run(env, s, es[..|es| - 1]), es[|es| - 1])
  }
}
