/** What each input does to the worker, told without the functions that do it. */
module WorkerEffects {
  import opened Domain
  import opened WorkerModel
  import opened WorkerProofs
  import opened WorkerFrequency
  import opened WorkerRefusals

  // ----- starting -----

  /** A worker starts with its row's frequency and status and empty queues; its ticker
      runs with the period of that frequency, or the loop waits for one. */
  lemma StartedExact(row: Row, sensors: seq<Sensor>)
    ensures var w := Started(row, sensors);
            && w.freq == row.freq && w.status == row.status && w.row == row && w.sensors == sensors
            && w.active == None && w.held == [] && w.commandCh == [] && w.anomalyCh == []
            && w.outlierCh == [] && w.configCh == [] && w.log == []
            && (forall i :: 0 <= i < |sensors| ==> w.overrides[i] == None)
            && w.configLive == (row.freq <= 0)
            && (0 < row.freq <= MAX_FREQUENCY ==> w.ticker == Some(row.freq * 1_000_000) && !w.panicked)
            && (row.freq <= 0 ==> w.ticker == None)
  {
    if 0 < row.freq <= MAX_FREQUENCY {
      PeriodExact(row.freq);
    }
  }

  // ----- clients -----

  /** A client's send goes to the end of its channel if fewer than ten wait there, and
      changes nothing else. */
  lemma SendsExact(env: Environment, s: Worker, cmd: Command, u: ConfigUpdate, a: AnomalyCommand, o: OutlierCommand)
    ensures Step(env, s, Offer(cmd)) == if |s.commandCh| < 10 then s.(commandCh := s.commandCh + [cmd]) else s
    ensures Step(env, s, PutAnomaly(a)) == if |s.anomalyCh| < 10 then s.(anomalyCh := s.anomalyCh + [a]) else s
    ensures Step(env, s, PutOutlier(o)) == if |s.outlierCh| < 10 then s.(outlierCh := s.outlierCh + [o]) else s
    ensures var t := Step(env, s, PutConfig(u));
            t == s.(configCh := if |s.configCh| < 10 then s.configCh + [u] else s.configCh, writes := t.writes)
  {
  }

  /** A sensor with a proper range is attached at the end, with no outlier armed. */
  lemma AttachExact(env: Environment, s: Worker, sensor: Sensor)
    ensures Step(env, s, Attach(sensor))
         == if sensor.min < sensor.max then s.(sensors := s.sensors + [sensor], overrides := s.overrides + [None]) else s
  {
  }

  // ----- configuration -----

  /** What is left of the status once a waiting update is taken. */
  function TakenStatus(status: Status, configCh: seq<ConfigUpdate>): Status {
    if configCh == [] || (configCh[0].freq.Some? && configCh[0].freq.value <= 0) || configCh[0].status.None?
    then status else configCh[0].status.value
  }

  function TakenFrequency(freq: int, configCh: seq<ConfigUpdate>): int {
    if configCh == [] || configCh[0].freq.None? || configCh[0].freq.value <= 0 then freq else configCh[0].freq.value
  }

  /** A tick takes one waiting update: its status and its frequency take effect, at once
      and with the new period, unless the frequency is not positive, which voids both. */
  lemma TickTakesConfig(env: Environment, s: Worker, t1: Instant, t2: Instant)
    ensures var t := Tick(env, s, t1, t2);
            && t.status == TakenStatus(s.status, s.configCh)
            && t.freq == TakenFrequency(s.freq, s.configCh)
            && (if s.configCh != [] && s.configCh[0].freq.Some? && 0 < s.configCh[0].freq.value <= MAX_FREQUENCY
                then t.ticker == Some(s.configCh[0].freq.value * 1_000_000)
                else s.configCh == [] || s.configCh[0].freq.None? || s.configCh[0].freq.value <= 0 ==> t.ticker == s.ticker)
  {
    ConfigTaken(s);
    var d := DrainControl(s, t1);
    DrainOutputs(s, t1);
    ExpiryOutputs(env, d, t2);
    PublishOutputs(env, CheckExpiry(env, d, t2));
  }

  lemma ConfigTaken(s: Worker)
    ensures var t := DrainConfig(s);
            && t.status == TakenStatus(s.status, s.configCh)
            && t.freq == TakenFrequency(s.freq, s.configCh)
            && t.configCh == (if s.configCh == [] then [] else s.configCh[1..])
            && (if s.configCh != [] && s.configCh[0].freq.Some? && 0 < s.configCh[0].freq.value <= MAX_FREQUENCY
                then t.ticker == Some(s.configCh[0].freq.value * 1_000_000)
                else s.configCh == [] || s.configCh[0].freq.None? || s.configCh[0].freq.value <= 0 ==> t.ticker == s.ticker)
  {
    if s.configCh != [] && s.configCh[0].freq.Some? && s.configCh[0].freq.value > 0 {
      PeriodExact(s.configCh[0].freq.value);
    }
  }

  /** Without a ticker the loop takes the updates itself: the first positive frequency
      starts the ticker, everything else in them is lost. */
  lemma ConfigTurnExact(env: Environment, s: Worker)
    requires s.configLive && s.configCh != []
    ensures var t, u := Step(env, s, ConfigTurn), s.configCh[0];
            && t.configCh == s.configCh[1..] && t.status == s.status
            && (if u.freq.Some? && u.freq.value > 0
                then t.freq == u.freq.value && !t.configLive
                  && (u.freq.value <= MAX_FREQUENCY ==> t.ticker == Some(u.freq.value * 1_000_000))
                else t == s.(configCh := s.configCh[1..]))
  {
    if s.configCh[0].freq.Some? && s.configCh[0].freq.value > 0 {
      PeriodExact(s.configCh[0].freq.value);
    }
  }

  // ----- anomalies -----

  /** A tick takes one waiting anomaly: it replaces the one in force, with its kind, its
      loss as a fraction, and its deadline counted from the drain. */
  lemma TickTakesAnomaly(env: Environment, s: Worker, t1: Instant, t2: Instant)
    requires s.anomalyCh != []
    ensures var t, cmd := Tick(env, s, t1, t2), s.anomalyCh[0];
            && t.anomalyCh == s.anomalyCh[1..]
            && match cmd
               case AnomalyCommand(NetworkDegradation, Some(d), _) =>
                 -9_223_372_036 <= d.seconds <= 9_223_372_036 ==>
                   InForce(t, NetworkDegradation, t1 + d.seconds * 1_000_000_000, if d.loss > 1.0 then d.loss / 100.0 else d.loss, t2)
               case AnomalyCommand(Disconnect, _, Some(seconds)) =>
                 -9_223_372_036 <= seconds <= 9_223_372_036 ==>
                   InForce(t, Disconnect, t1 + seconds * 1_000_000_000, 0.0, t2)
               case _ => t.active == Some(Active(cmd.kind, 0, 0.0))
  {
    TickState(env, s, t1, t2);
  }

  /** In force unless the deadline has passed; the zero time is no deadline. */
  predicate InForce(t: Worker, kind: AnomalyKind, expiresAt: Instant, loss: real, now: Instant) {
    t.active == if expiresAt != 0 && now >= expiresAt then None else Some(Active(kind, expiresAt, loss))
  }

  /** With none waiting, the anomaly in force stays until its deadline. */
  lemma TickKeepsAnomaly(env: Environment, s: Worker, t1: Instant, t2: Instant)
    requires s.anomalyCh == []
    ensures var t := Tick(env, s, t1, t2);
            t.active == if s.active.Some? && s.active.value.expiresAt != 0 && t2 >= s.active.value.expiresAt then None
                        else s.active
  {
    TickState(env, s, t1, t2);
  }

  // ----- commands -----

  /** An accepted config command has stored both of its parts and queued itself. */
  lemma AcceptedTakesEffect(env: Environment, s: Worker, u: ConfigUpdate)
    requires HandleConfig(env, s, Some(u)).1 == Ack
    ensures var t := HandleConfig(env, s, Some(u)).0;
            && t.row.freq == (if u.freq.Some? then u.freq.value else s.row.freq)
            && t.row.status == (if u.status.Some? then u.status.value else s.row.status)
            && t.row.firmware == s.row.firmware
            && t.configCh == s.configCh + [u]
            && t == s.(row := t.row, storeCalls := t.storeCalls, configCh := t.configCh, writes := t.writes)
  {
    FrequencyWritten(env, s, u);
    StatusWritten(env, PersistFrequency(env, s, u).0, u);
  }

  /** A firmware command is accepted if its version is empty, and then does nothing, or
      if the store takes the version, which is then stored; one that does not decode and
      commands of unknown type are refused. */
  lemma OtherCommandsExact(env: Environment, s: Worker, cmd: Command)
    ensures var (t, status) := Process(env, s, cmd);
            match cmd.body
            case PushFirmware(None) => status == Nack && t == s
            case PushFirmware(Some(version)) =>
              if version == "" then status == Ack && t == s
              else if env.storeFails(s.storeCalls) then status == Nack && t == s.(storeCalls := s.storeCalls + 1)
              else status == Ack && t == s.(storeCalls := s.storeCalls + 1, row := s.row.(firmware := version))
            case UnknownType => status == Nack && t == s
            case Configure(None) => status == Nack && t == s
            case Configure(Some(_)) => true
  {
  }

  /** Whatever the command, exactly one reply with its status is logged. */
  lemma AnswerExact(env: Environment, s: Worker, cmd: Command)
    ensures var (t, status) := Process(env, s, cmd);
            var a := Answer(env, s, cmd);
            a.log == s.log + [Replied(cmd, status, s.active)] && a == t.(log := a.log)
  {
    match cmd.body {
      case Configure(payload) => HandleConfigFrame(env, s, payload);
      case _ =>
    }
  }

  // ----- outliers -----

  /** A tick arms the first sensor of each waiting outlier's ID, with its value or twice
      the sensor's maximum; one for an unknown sensor is dropped. */
  lemma OutlierArms(s: Worker, o: OutlierCommand, i: nat)
    requires i < |s.sensors| && s.sensors[i].id == o.sensor && forall j :: 0 <= j < i ==> s.sensors[j].id != o.sensor
    ensures var t := ArmOne(s, o);
            var value := match o.value case Some(v) => v case None => s.sensors[i].max + s.sensors[i].max;
            t == s.(overrides := s.overrides[i := Some(value)], log := s.log + [Armed(i, value)])
  {
  }

  lemma UnknownOutlierDropped(s: Worker, o: OutlierCommand)
    requires forall j :: 0 <= j < |s.sensors| ==> s.sensors[j].id != o.sensor
    ensures ArmOne(s, o) == s
  {
  }
}
