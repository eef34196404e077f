/** The worker in the form it runs in: an object whose methods update its fields,
    each tied to the state machine of `WorkerModel`. */
module GatewayWorkers {
  import opened Domain
  import opened Generators
  import opened WorkerModel

  lemma AnswerNext(env: Environment, s: Worker, cmds: seq<Command>, i: nat)
    requires i < |cmds|
    ensures AnswerAll(env, s, cmds[..i + 1]) == Answer(env, AnswerAll(env, s, cmds[..i]), cmds[i])
  {
    assert cmds[..i + 1][..i] == cmds[..i];
  }

  lemma EmitNext(env: Environment, s: Worker, i: nat)
    requires i < |s.sensors|
    ensures EmitUpTo(env, s, i + 1) == EmitOne(env, EmitUpTo(env, s, i), i)
  {
  }

  lemma {:induction false} ArmAllFirst(s: Worker, outliers: seq<OutlierCommand>)
    requires outliers != []
    ensures ArmAll(s, outliers) == ArmAll(ArmOne(s, outliers[0]), outliers[1..])
  {
    if |outliers| > 1 {
      var n := |outliers| - 1;
      ArmAllFirst(s, outliers[..n]);
      assert outliers[1..][..n - 1] == outliers[..n][1..];
    }
  }

  /** Draining may be done one outlier at a time. */
  lemma DrainOneOutlier(s: Worker)
    requires s.outlierCh != []
    ensures DrainOutliers(s) == DrainOutliers(ArmOne(s.(outlierCh := s.outlierCh[1..]), s.outlierCh[0]))
  {
    ArmAllFirst(s.(outlierCh := []), s.outlierCh);
  }

  class GatewayWorker {
    const env: Environment

    var freq: int
    var status: Status
    var activeAnomaly: Option<Active>
    var anomalyCommandBuffer: seq<Command>
    var commandCh: seq<Command>
    var anomalyCh: seq<AnomalyCommand>
    var outlierCh: seq<OutlierCommand>
    var configCh: seq<ConfigUpdate>
    var sensors: seq<Sensor>
    var generators: seq<Generator>
    var ticker: Option<int>
    var configLive: bool
    var panicked: bool
    var row: Row
    var storeCalls: nat
    var emissions: nat
    ghost var log: seq<Output>
    ghost var writes: seq<FrequencyWrite>

    ghost predicate Valid()
      reads this, generators
    {
      && |generators| == |sensors|
      && (forall i, j :: 0 <= i < j < |generators| ==> generators[i] != generators[j])
      && (forall i :: 0 <= i < |generators| ==>
            && generators[i].algorithm == sensors[i].algorithm
            && generators[i].min == sensors[i].min
            && generators[i].max == sensors[i].max)
    }

    ghost function Overrides(): (r: seq<Option<real>>)
      reads this, generators
      ensures |r| == |generators|
      ensures forall i :: 0 <= i < |generators| ==> r[i] == generators[i].outlierOverride
    {
      seq(|generators|, i requires 0 <= i < |generators| reads this, generators => generators[i].outlierOverride)
    }

    ghost function Snapshot(): Worker
      requires Valid()
      reads this, generators
    {
      State(freq, status, activeAnomaly, anomalyCommandBuffer, commandCh, anomalyCh, outlierCh, configCh,
            sensors, Overrides(), ticker, configLive, panicked, row, storeCalls, emissions, log, writes)
    }

    /** A worker built for a stored gateway, at the entry of its loop. */
    constructor (env: Environment, row: Row, sensors: seq<Sensor>)
      ensures Valid() && this.env == env && fresh(generators)
      ensures Snapshot() == Started(row, sensors)
    {
      this.env := env;
      freq, status, activeAnomaly, anomalyCommandBuffer := row.freq, row.status, None, [];
      commandCh, anomalyCh, outlierCh, configCh := [], [], [], [];
      this.sensors, generators := sensors, [];
      ticker, configLive, panicked := None, false, false;
      this.row, storeCalls, emissions := row, 0, 0;
      log, writes := [], [];
      new;
      generators := MakeGenerators(sensors);
      assert Overrides() == Idle(row, sensors).overrides;
      if freq > 0 {
        ResetTicker(freq);
      } else {
        configLive := true;
      }
    }

    /** One idle generator for each sensor, in order. */
    static method MakeGenerators(sensors: seq<Sensor>) returns (gens: seq<Generator>)
      ensures fresh(gens) && |gens| == |sensors|
      ensures forall k :: 0 <= k < |sensors| ==>
                && gens[k].algorithm == sensors[k].algorithm
                && gens[k].min == sensors[k].min && gens[k].max == sensors[k].max
                && gens[k].outlierOverride == None
      ensures forall k, l :: 0 <= k < l < |sensors| ==> gens[k] != gens[l]
    {
      gens := [];
      for i := 0 to |sensors|
        invariant |gens| == i && fresh(gens)
        invariant forall k :: 0 <= k < i ==>
                    && gens[k].algorithm == sensors[k].algorithm
                    && gens[k].min == sensors[k].min && gens[k].max == sensors[k].max
                    && gens[k].outlierOverride == None
        invariant forall k, l :: 0 <= k < l < i ==> gens[k] != gens[l]
      {
        var g := new Generator(sensors[i]);
        gens := gens + [g];
      }
    }

    method ResetTicker(f: int)
      requires Valid()
      modifies this
      ensures Valid() && generators == old(generators)
      ensures Snapshot() == SetTicker(old(Snapshot()), f)
    {
      freq := f;
      ticker := Some(TickerPeriod(f));
      panicked := panicked || TickerPeriod(f) <= 0;
    }

    method DrainControlChannels(now: Instant)
      requires Valid()
      modifies this, generators
      ensures Valid() && generators == old(generators)
      ensures Snapshot() == DrainControl(old(Snapshot()), now)
    {
      DrainConfigChannel();
      if anomalyCh != [] {
        var cmd := anomalyCh[0];
        ghost var before := Overrides();
        anomalyCh := anomalyCh[1..];
        assert Overrides() == before;
        HandleAnomalyCommand(cmd, now);
      }
      DrainOutlierChannel();
    }

    method DrainConfigChannel()
      requires Valid()
      modifies this
      ensures Valid() && generators == old(generators)
      ensures Snapshot() == DrainConfig(old(Snapshot()))
    {
      if configCh != [] {
        var cfg := configCh[0];
        configCh := configCh[1..];
        if cfg.freq.Some? {
          if cfg.freq.value <= 0 {
            return;
          }
          ResetTicker(cfg.freq.value);
        }
        if cfg.status.Some? {
          status := cfg.status.value;
        }
      }
    }

    method HandleAnomalyCommand(cmd: AnomalyCommand, now: Instant)
      requires Valid()
      modifies this
      ensures Valid() && generators == old(generators)
      ensures Snapshot() == old(Snapshot()).(active := Some(StartAnomaly(cmd, now)))
    {
      var expiresAt, loss := 0, 0.0;
      match cmd.kind {
        case NetworkDegradation =>
          if cmd.degradation.Some? {
            expiresAt := now + WrapInt64(cmd.degradation.value.seconds * SECOND);
            loss := cmd.degradation.value.loss;
            if loss > 1.0 {
              loss := loss / 100.0;
            }
          }
        case Disconnect =>
          if cmd.disconnectSeconds.Some? {
            expiresAt := now + WrapInt64(cmd.disconnectSeconds.value * SECOND);
          }
        case OtherKind(_) =>
      }
      activeAnomaly := Some(Active(cmd.kind, expiresAt, loss));
      assert Overrides() == old(Overrides());
    }

    method DrainOutlierChannel()
      requires Valid()
      modifies this, generators
      ensures Valid() && generators == old(generators)
      ensures Snapshot() == DrainOutliers(old(Snapshot()))
    {
      while outlierCh != []
        invariant Valid() && generators == old(generators)
        invariant DrainOutliers(Snapshot()) == DrainOutliers(old(Snapshot()))
        decreases |outlierCh|
      {
        ghost var before := Snapshot();
        DrainOneOutlier(before);
        var cmd := outlierCh[0];
        outlierCh := outlierCh[1..];
        assert Overrides() == before.overrides;
        InjectOutlier(cmd);
      }
    }

    method InjectOutlier(cmd: OutlierCommand)
      requires Valid()
      modifies this, generators
      ensures Valid() && generators == old(generators)
      ensures Snapshot() == ArmOne(old(Snapshot()), cmd)
    {
      for i := 0 to |sensors|
        invariant Valid() && generators == old(generators) && Snapshot() == old(Snapshot())
        invariant forall j :: 0 <= j < i ==> sensors[j].id != cmd.sensor
      {
        if sensors[i].id == cmd.sensor {
          var value := sensors[i].max * 2.0;
          if cmd.value.Some? {
            value := cmd.value.value;
          }
          generators[i].InjectOutlier(value);
          log := log + [Armed(i, value)];
          return;
        }
      }
    }

    method CheckAnomalyExpiry(now: Instant)
      requires Valid()
      modifies this
      ensures Valid() && generators == old(generators)
      ensures Snapshot() == CheckExpiry(env, old(Snapshot()), now)
    {
      if activeAnomaly.None? {
        return;
      }
      if activeAnomaly.value.expiresAt == 0 {
        return;
      }
      if now < activeAnomaly.value.expiresAt {
        return;
      }
      ghost var before := Overrides();
      activeAnomaly := None;
      assert Overrides() == before;
      FlushBufferedCommands();
    }

    method FlushBufferedCommands()
      requires Valid()
      modifies this
      ensures Valid() && generators == old(generators)
      ensures Snapshot() == FlushHeld(env, old(Snapshot()))
    {
      var held := anomalyCommandBuffer;
      for i := 0 to |held|
        invariant Valid() && generators == old(generators)
        invariant Snapshot() == AnswerAll(env, old(Snapshot()), held[..i])
      {
        AnswerNext(env, old(Snapshot()), held, i);
        Reply(held[i]);
      }
      ghost var flushed := Snapshot();
      assert held[..|held|] == held;
      anomalyCommandBuffer := [];
      assert Overrides() == flushed.overrides;
    }

    /** Processes one command and sends its reply. */
    method Reply(cmd: Command)
      requires Valid()
      modifies this
      ensures Valid() && generators == old(generators)
      ensures Snapshot() == Answer(env, old(Snapshot()), cmd)
    {
      var status := ProcessIncomingCommand(cmd);
      ghost var processed := Snapshot();
      log := log + [Replied(cmd, status, activeAnomaly)];
      assert Overrides() == processed.overrides;
    }

    method HandleIncomingCommand(cmd: Command)
      requires Valid()
      modifies this
      ensures Valid() && generators == old(generators)
      ensures var s := old(Snapshot());
              Snapshot() == if s.active.Some? then s.(held := s.held + [cmd]) else Answer(env, s, cmd)
    {
      if activeAnomaly.Some? {
        anomalyCommandBuffer := anomalyCommandBuffer + [cmd];
        assert Overrides() == old(Overrides());
        return;
      }
      Reply(cmd);
    }

    method ProcessIncomingCommand(cmd: Command) returns (status: AckStatus)
      requires Valid()
      modifies this
      ensures Valid() && generators == old(generators)
      ensures (Snapshot(), status) == Process(env, old(Snapshot()), cmd)
    {
      match cmd.body {
        case Configure(update) => status := HandleConfigUpdateCommand(update);
        case PushFirmware(version) => status := HandleFirmwarePushCommand(version);
        case UnknownType => status := Nack;
      }
    }

    /** One call to the store; a failed call changes nothing. */
    method CallStore() returns (ok: bool)
      requires Valid()
      modifies this`storeCalls
      ensures Valid()
      ensures Snapshot() == old(Snapshot()).(storeCalls := old(storeCalls) + 1)
      ensures ok == !env.storeFails(old(storeCalls))
    {
      ok := !env.storeFails(storeCalls);
      storeCalls := storeCalls + 1;
      assert Overrides() == old(Overrides());
    }

    method HandleConfigUpdateCommand(payload: Option<ConfigUpdate>) returns (status: AckStatus)
      requires Valid()
      modifies this
      ensures Valid() && generators == old(generators)
      ensures (Snapshot(), status) == HandleConfig(env, old(Snapshot()), payload)
    {
      if payload.None? {
        return Nack;
      }
      var u := payload.value;
      var kept := StoreFrequency(u);
      if !kept {
        return Nack;
      }
      var ok := StoreStatus(u);
      if !ok {
        NoteFrequency(u, false);
        return Nack;
      }
      status := Queue(u);
    }

    method Queue(u: ConfigUpdate) returns (status: AckStatus)
      requires Valid()
      modifies this`configCh, this`writes
      ensures Valid()
      ensures (Snapshot(), status) == QueueUpdate(old(Snapshot()), u)
    {
      if |configCh| < CAPACITY {
        configCh := configCh + [u];
        assert Overrides() == old(Overrides());
        NoteFrequency(u, true);
        return Ack;
      }
      NoteFrequency(u, false);
      return Nack;
    }

    ghost method NoteFrequency(u: ConfigUpdate, queued: bool)
      requires Valid()
      modifies this`writes
      ensures Valid()
      ensures Snapshot() == NoteWrite(old(Snapshot()), u, true, queued)
    {
      if u.freq.Some? && u.freq.value > 0 {
        writes := writes + [FrequencyWrite(u.freq.value, true, queued)];
      }
      assert Overrides() == old(Overrides());
    }

    method StoreFrequency(u: ConfigUpdate) returns (kept: bool)
      requires Valid()
      modifies this`row, this`storeCalls
      ensures Valid()
      ensures (Snapshot(), kept) == PersistFrequency(env, old(Snapshot()), u)
    {
      if u.freq.None? {
        return true;
      }
      if u.freq.value <= 0 {
        return false;
      }
      kept := CallStore();
      if kept {
        row := row.(freq := u.freq.value);
      }
      assert Overrides() == old(Overrides());
    }

    method StoreStatus(u: ConfigUpdate) returns (kept: bool)
      requires Valid()
      modifies this`row, this`storeCalls
      ensures Valid()
      ensures (Snapshot(), kept) == PersistStatus(env, old(Snapshot()), u)
    {
      if u.status.None? {
        return true;
      }
      kept := CallStore();
      if kept {
        row := row.(status := u.status.value);
      }
      assert Overrides() == old(Overrides());
    }

    method HandleFirmwarePushCommand(version: Option<string>) returns (status: AckStatus)
      requires Valid()
      modifies this`row, this`storeCalls
      ensures Valid()
      ensures (Snapshot(), status) == HandleFirmware(env, old(Snapshot()), version)
    {
      if version.None? {
        return Nack;
      }
      if version.value == "" {
        return Ack;
      }
      var ok := CallStore();
      if ok {
        row := row.(firmware := version.value);
      }
      assert Overrides() == old(Overrides());
      status := if ok then Ack else Nack;
    }

    method PublishSensorData()
      requires Valid()
      modifies this, generators
      ensures Valid() && generators == old(generators)
      ensures Snapshot() == Publish(env, old(Snapshot()))
    {
      if Silenced(activeAnomaly, status) {
        return;
      }
      ghost var start := Snapshot();
      for i := 0 to |sensors|
        invariant Valid()
        invariant Snapshot() == EmitUpTo(env, start, i)
        modifies this`emissions, this`log, generators
      {
        EmitNext(env, start, i);
        SendSensorTelemetry(i);
      }
    }

    method SendSensorTelemetry(i: nat)
      requires Valid() && i < |sensors|
      modifies this`emissions, this`log, generators[i]
      ensures Valid()
      ensures Snapshot() == EmitOne(env, old(Snapshot()), i)
    {
      var roll := env.roll(emissions);
      ghost var base := BaseValue(generators[i].algorithm, generators[i].min, generators[i].max, roll.draw);
      var value := generators[i].Next(roll.draw);
      assert Overrides() == old(Overrides())[i := None];
      emissions := emissions + 1;
      log := log + [Emitted(i, value, base)];
      if !roll.isSealed {
        return;
      }
      if activeAnomaly.Some? && activeAnomaly.value.kind == NetworkDegradation {
        if roll.loss < activeAnomaly.value.loss {
          return;
        }
      }
      log := log + [Buffered(i, value, activeAnomaly, status)];
    }

    method ProcessTick(drainAt: Instant, checkAt: Instant)
      requires Valid()
      modifies this, generators
      ensures Valid() && generators == old(generators)
      ensures Snapshot() == Tick(env, old(Snapshot()), drainAt, checkAt)
    {
      DrainControlChannels(drainAt);
      CheckAnomalyExpiry(checkAt);
      PublishSensorData();
    }

    method Attach(sensor: Sensor) returns (ok: bool)
      requires Valid()
      modifies this`sensors, this`generators
      ensures Valid()
      ensures ok == (sensor.min < sensor.max)
      ensures Snapshot() == AttachSensor(old(Snapshot()), sensor)
      ensures fresh(set g | g in generators && g !in old(generators))
    {
      if sensor.min >= sensor.max {
        return false;
      }
      var gen := new Generator(sensor);
      sensors := sensors + [sensor];
      generators := generators + [gen];
      assert Overrides() == old(Overrides()) + [None];
      ok := true;
    }

    /** The non-blocking send of the command pump. */
    method TryCommand(cmd: Command) returns (ok: bool)
      requires Valid()
      modifies this`commandCh
      ensures Valid()
      ensures ok == (|old(commandCh)| < CAPACITY)
      ensures Snapshot() == Step(env, old(Snapshot()), Offer(cmd))
    {
      ok := |commandCh| < CAPACITY;
      if ok {
        commandCh := commandCh + [cmd];
      }
      assert Overrides() == old(Overrides());
    }

    /** The branch of the loop's select that receives a command. */
    method ReceiveCommand()
      requires Valid() && commandCh != []
      modifies this
      ensures Valid() && generators == old(generators)
      ensures Snapshot() == Step(env, old(Snapshot()), CommandTurn)
    {
      var cmd := commandCh[0];
      commandCh := commandCh[1..];
      assert Overrides() == old(Overrides());
      HandleIncomingCommand(cmd);
    }

    /** The branch of the loop's select that receives a configuration, live only
        while there is no ticker. */
    method ReceiveConfig()
      requires Valid() && configLive && configCh != []
      modifies this
      ensures Valid() && generators == old(generators)
      ensures Snapshot() == Step(env, old(Snapshot()), ConfigTurn)
    {
      var cfg := configCh[0];
      configCh := configCh[1..];
      assert Overrides() == old(Overrides());
      if cfg.freq.Some? && cfg.freq.value > 0 {
        ResetTicker(cfg.freq.value);
        ghost var s := Snapshot();
        configLive := false;
        assert Overrides() == s.overrides;
      }
    }
  }
}
