/** Injected outliers: which emission each one reaches. */
module WorkerOutliers {
  import opened Domain
  import opened Generators
  import opened WorkerModel
  import opened WorkerProofs

  // ----- a reference reading of the log -----

  predicate Concerns(o: Output, i: nat) {
    (o.Armed? || o.Emitted?) && o.sensor == i
  }

  /** The p-th entry is the last one about sensor i, and it arms an outlier. */
  ghost predicate ArmedAt(log: seq<Output>, p: nat, i: nat) {
    && p < |log|
    && log[p].Armed? && log[p].sensor == i
    && forall j :: p < j < |log| ==> !Concerns(log[j], i)
  }

  /** The p-th entry arms the very outlier that the k-th entry emits: same sensor,
      and nothing about that sensor happens in between. */
  ghost predicate Supplies(log: seq<Output>, p: nat, k: nat) {
    k < |log| && log[k].Emitted? && ArmedAt(log[..k], p, log[k].sensor)
  }

  /** The emission is the outlier armed last since the sensor's previous
      emission, or, without one, the generator's base value. */
  ghost predicate Explained(log: seq<Output>, k: nat)
    requires k < |log| && log[k].Emitted?
  {
    if exists p: nat :: Supplies(log, p, k)
    then exists p: nat :: Supplies(log, p, k) && log[k].value == log[p].value
    else log[k].value == log[k].base
  }

  ghost predicate EmissionsExplained(log: seq<Output>) {
    forall k :: 0 <= k < |log| && log[k].Emitted? ==> Explained(log, k)
  }

  /** An outlier reaches at most one emission. */
  lemma SuppliesOnce(log: seq<Output>, p: nat, k1: nat, k2: nat)
    requires Supplies(log, p, k1) && Supplies(log, p, k2)
    ensures k1 == k2
  {
    assert k1 < k2 ==> Concerns(log[k1], log[k2].sensor);
    assert k2 < k1 ==> Concerns(log[k2], log[k1].sensor);
  }

  // ----- the override cells -----

  function Pending(log: seq<Output>, i: nat): Option<real> {
    if log == [] then None
    else
      var last := log[|log| - 1];
      if last.Armed? && last.sensor == i then Some(last.value)
      else if last.Emitted? && last.sensor == i then None
      else Pending(log[..|log| - 1], i)
  }

  lemma {:induction false} PendingIsArmed(log: seq<Output>, i: nat)
    ensures Pending(log, i).Some? <==> exists p: nat :: ArmedAt(log, p, i)
    ensures Pending(log, i).Some? ==> exists p: nat :: ArmedAt(log, p, i) && log[p].value == Pending(log, i).value
  {
    if log != [] {
      var n := |log| - 1;
      if log[n].Armed? && log[n].sensor == i {
        assert ArmedAt(log, n, i);
      } else if !Concerns(log[n], i) {
        PendingIsArmed(log[..n], i);
        forall p: nat | ArmedAt(log[..n], p, i) ensures ArmedAt(log, p, i) {
        }
        forall p: nat | ArmedAt(log, p, i) ensures ArmedAt(log[..n], p, i) {
        }
      } else {
        assert forall p: nat :: ArmedAt(log, p, i) ==> p == n;
      }
    }
  }

  ghost predicate CellsInv(s: Worker) {
    && (forall i :: 0 <= i < |s.sensors| ==> s.overrides[i] == Pending(s.log, i))
    && (forall k, i :: 0 <= k < |s.log| && i >= |s.sensors| ==> !Concerns(s.log[k], i))
    && EmissionsExplained(s.log)
  }

  lemma Unconcerned(log: seq<Output>, i: nat)
    requires forall k :: 0 <= k < |log| ==> !Concerns(log[k], i)
    ensures Pending(log, i) == None
  {
    PendingIsArmed(log, i);
  }

  lemma ExplainedExtends(log: seq<Output>, o: Output)
    requires EmissionsExplained(log)
    requires o.Emitted? ==>
               o.value == (if Pending(log, o.sensor).Some? then Pending(log, o.sensor).value else o.base)
    ensures EmissionsExplained(log + [o])
  {
    var more := log + [o];
    forall k | 0 <= k < |more| && more[k].Emitted? ensures Explained(more, k) {
      if k < |log| {
        assert more[..k] == log[..k];
        assert Explained(log, k);
        assert forall p: nat :: Supplies(more, p, k) <==> Supplies(log, p, k);
      } else {
        assert more[..k] == log;
        PendingIsArmed(log, o.sensor);
        assert forall p: nat :: Supplies(more, p, k) <==> ArmedAt(log, p, o.sensor);
      }
    }
  }

  lemma CellsExtend(s: Worker, t: Worker, o: Output)
    requires CellsInv(s)
    requires t.sensors == s.sensors && t.log == s.log + [o]
    requires o.Armed? || o.Emitted? ==> o.sensor < |s.sensors|
    requires o.Emitted? ==>
               o.value == (if s.overrides[o.sensor].Some? then s.overrides[o.sensor].value else o.base)
    requires t.overrides == if o.Armed? then s.overrides[o.sensor := Some(o.value)]
                            else if o.Emitted? then s.overrides[o.sensor := None]
                            else s.overrides
    ensures CellsInv(t)
  {
    ExplainedExtends(s.log, o);
    assert t.log[..|t.log| - 1] == s.log;
  }

  lemma ArmOneKeepsCells(s: Worker, o: OutlierCommand)
    requires CellsInv(s)
    ensures CellsInv(ArmOne(s, o))
  {
    var i := FindSensor(s.sensors, o.sensor);
    if i < |s.sensors| {
      CellsExtend(s, ArmOne(s, o), Armed(i, OutlierValue(s.sensors[i], o)));
    }
  }

  lemma {:induction false} ArmAllKeepsCells(s: Worker, outliers: seq<OutlierCommand>)
    requires CellsInv(s)
    ensures CellsInv(ArmAll(s, outliers))
  {
    if outliers != [] {
      ArmAllKeepsCells(s, outliers[..|outliers| - 1]);
      ArmOneKeepsCells(ArmAll(s, outliers[..|outliers| - 1]), outliers[|outliers| - 1]);
    }
  }

  lemma EmitOneKeepsCells(env: Environment, s: Worker, i: nat)
    requires CellsInv(s) && i < |s.sensors|
    ensures CellsInv(EmitOne(env, s, i))
  {
    EmitOneOutputs(env, s, i);
    var t := EmitOne(env, s, i);
    var emitted := t.(log := t.log[..|s.log| + 1]);
    CellsExtend(s, emitted, t.log[|s.log|]);
    if |t.log| > |s.log| + 1 {
      CellsExtend(emitted, t, t.log[|s.log| + 1]);
    }
  }

  lemma {:induction false} EmitKeepsCells(env: Environment, s: Worker, n: nat)
    requires CellsInv(s) && n <= |s.sensors|
    ensures CellsInv(EmitUpTo(env, s, n))
  {
    if n != 0 {
      var before := EmitUpTo(env, s, n - 1);
      EmitKeepsCells(env, s, n - 1);
      EmitOneKeepsCells(env, before, n - 1);
      assert EmitUpTo(env, s, n) == EmitOne(env, before, n - 1);
    }
  }

  lemma {:induction false} AnswerAllKeepsCells(env: Environment, s: Worker, cmds: seq<Command>)
    requires CellsInv(s)
    ensures CellsInv(AnswerAll(env, s, cmds))
  {
    if cmds != [] {
      var before := AnswerAll(env, s, cmds[..|cmds| - 1]);
      AnswerAllKeepsCells(env, s, cmds[..|cmds| - 1]);
      AnswerKeepsCells(env, before, cmds[|cmds| - 1]);
    }
  }

  lemma AnswerKeepsCells(env: Environment, s: Worker, cmd: Command)
    requires CellsInv(s)
    ensures CellsInv(Answer(env, s, cmd))
  {
    AnswerOutputs(env, s, cmd);
    var t := Answer(env, s, cmd);
    assert t.log == s.log + [t.log[|s.log|]];
    CellsExtend(s, t, t.log[|s.log|]);
  }

  lemma DrainKeepsCells(s: Worker, now: Instant)
    requires CellsInv(s)
    ensures CellsInv(DrainControl(s, now))
  {
    DrainConfigFrame(s);
    var a := DrainAnomaly(DrainConfig(s), now);
    ArmAllKeepsCells(a.(outlierCh := []), a.outlierCh);
  }

  lemma TickKeepsCells(env: Environment, s: Worker, t1: Instant, t2: Instant)
    requires CellsInv(s)
    ensures CellsInv(Tick(env, s, t1, t2))
  {
    DrainKeepsCells(s, t1);
    var d := DrainControl(s, t1);
    AnswerAllKeepsCells(env, d.(active := None), d.held);
    var c := CheckExpiry(env, d, t2);
    EmitKeepsCells(env, c, |c.sensors|);
  }

  lemma AttachKeepsCells(s: Worker, sensor: Sensor)
    requires CellsInv(s)
    ensures CellsInv(AttachSensor(s, sensor))
  {
    Unconcerned(s.log, |s.sensors|);
  }

  lemma CommandKeepsCells(env: Environment, s: Worker)
    requires CellsInv(s)
    ensures CellsInv(TakeCommand(env, s))
  {
    if s.commandCh != [] {
      AnswerKeepsCells(env, s.(commandCh := s.commandCh[1..]), s.commandCh[0]);
    }
  }

  lemma StepKeepsCells(env: Environment, s: Worker, e: Event)
    requires CellsInv(s)
    ensures CellsInv(Step(env, s, e))
  {
    match e
    case TickTurn(t1, t2) => TickKeepsCells(env, s, t1, t2);
    case CommandTurn => CommandKeepsCells(env, s);
    case Attach(sensor) => AttachKeepsCells(s, sensor);
    case _ =>
  }

  /** In every run each override cell holds the outlier armed last and not yet
      emitted, through any number of silent ticks, and every emission is explained. */
  lemma {:induction false} RunKeepsCells(env: Environment, row: Row, sensors: seq<Sensor>, es: seq<Event>)
    ensures CellsInv(Run(env, Started(row, sensors), es))
  {
    if es != [] {
      RunKeepsCells(env, row, sensors, es[..|es| - 1]);
      StepKeepsCells(env, Run(env, Started(row, sensors), es[..|es| - 1]), es[|es| - 1]);
    }
  }

  // ----- what a drain arms -----

  /** The entries a drain of these commands must produce: one for each command
      whose sensor is known, at the first sensor with that id. */
  function ArmedBy(sensors: seq<Sensor>, outliers: seq<OutlierCommand>): seq<Output> {
    if outliers == [] then []
    else
      var before := ArmedBy(sensors, outliers[..|outliers| - 1]);
      var o := outliers[|outliers| - 1];
      var i := FindSensor(sensors, o.sensor);
      if i < |sensors| then before + [Armed(i, OutlierValue(sensors[i], o))] else before
  }

  lemma {:induction false} ArmAllEntries(s: Worker, outliers: seq<OutlierCommand>)
    ensures ArmAll(s, outliers).log == s.log + ArmedBy(s.sensors, outliers)
    ensures ArmAll(s, outliers).sensors == s.sensors
  {
    if outliers != [] {
      ArmAllEntries(s, outliers[..|outliers| - 1]);
    }
  }

  /** A tick empties outlierCh and arms its commands in order. */
  lemma DrainArms(s: Worker, now: Instant)
    ensures DrainControl(s, now).outlierCh == []
    ensures DrainControl(s, now).log == s.log + ArmedBy(s.sensors, s.outlierCh)
  {
    DrainOutputs(s, now);
    DrainConfigFrame(s);
    var a := DrainAnomaly(DrainConfig(s), now);
    ArmAllEntries(a.(outlierCh := []), a.outlierCh);
  }
}
