/** What a tick hands to the message buffer, told on the log. */
module WorkerTelemetry {
  import opened Domain
  import opened Generators
  import opened WorkerModel
  import opened WorkerProofs

  /** The i-th envelope since the worker's emissions is sealed and not lost on the way. */
  predicate Goes(env: Environment, active: Option<Active>, emissions: nat, i: nat) {
    && env.roll(emissions + i).isSealed
    && !(active.Some? && active.value.kind == NetworkDegradation && env.roll(emissions + i).loss < active.value.loss)
  }

  /** How many log entries the first n sensors make: one for the value, one more for
      each envelope that goes. */
  function Entries(env: Environment, active: Option<Active>, emissions: nat, n: nat): nat {
    if n == 0 then 0 else Entries(env, active, emissions, n - 1) + if Goes(env, active, emissions, n - 1) then 2 else 1
  }

  /** The value the i-th sensor must show: its outlier if one is armed, else what its
      algorithm makes of the draw. */
  function Value(env: Environment, c: Worker, i: nat): real
    requires i < |c.sensors|
  {
    if c.overrides[i].Some? then c.overrides[i].value
    else BaseValue(c.sensors[i].algorithm, c.sensors[i].min, c.sensors[i].max, env.roll(c.emissions + i).draw)
  }

  /** From position `from` on the log holds the telemetry of sensor i. */
  ghost predicate Shows(env: Environment, c: Worker, log: seq<Output>, from: nat, i: nat)
    requires i < |c.sensors|
  {
    && from < |log|
    && log[from].Emitted? && log[from].sensor == i && log[from].value == Value(env, c, i)
    && (Goes(env, c.active, c.emissions, i) ==>
          from + 1 < |log| && log[from + 1] == Buffered(i, Value(env, c, i), c.active, c.status))
  }

  /** The log holds the telemetry of the first n sensors, in order, and nothing else. */
  ghost predicate Telemetry(env: Environment, c: Worker, log: seq<Output>, from: nat, n: nat)
    requires n <= |c.sensors|
  {
    && |log| == from + Entries(env, c.active, c.emissions, n)
    && forall i :: 0 <= i < n ==> Shows(env, c, log, from + Entries(env, c.active, c.emissions, i), i)
  }

  lemma OneEmission(env: Environment, c: Worker, s: Worker, i: nat)
    requires i < |c.sensors| && s.sensors == c.sensors && s.active == c.active && s.status == c.status
    requires s.emissions == c.emissions + i && s.overrides[i] == c.overrides[i]
    ensures var t := EmitOne(env, s, i);
            && s.log <= t.log
            && |t.log| == |s.log| + (if Goes(env, c.active, c.emissions, i) then 2 else 1)
            && Shows(env, c, t.log, |s.log|, i)
  {
  }

  lemma ShowsStays(env: Environment, c: Worker, log: seq<Output>, more: seq<Output>, from: nat, i: nat)
    requires i < |c.sensors| && log <= more && Shows(env, c, log, from, i)
    ensures Shows(env, c, more, from, i)
  {
  }

  lemma TelemetryNext(env: Environment, c: Worker, log: seq<Output>, more: seq<Output>, from: nat, n: nat)
    requires n < |c.sensors| && log <= more && Telemetry(env, c, log, from, n) && Shows(env, c, more, |log|, n)
    requires |more| == |log| + if Goes(env, c.active, c.emissions, n) then 2 else 1
    ensures Telemetry(env, c, more, from, n + 1)
  {
    forall i | 0 <= i < n + 1 ensures Shows(env, c, more, from + Entries(env, c.active, c.emissions, i), i) {
      if i < n {
        ShowsStays(env, c, log, more, from + Entries(env, c.active, c.emissions, i), i);
      }
    }
  }

  lemma {:induction false} EmissionsFrame(env: Environment, c: Worker, n: nat)
    requires n <= |c.sensors|
    ensures var t := EmitUpTo(env, c, n);
            && t == c.(overrides := t.overrides, emissions := c.emissions + n, log := t.log)
            && (forall k :: 0 <= k < |c.sensors| ==> t.overrides[k] == if k < n then None else c.overrides[k])
  {
    if n > 0 {
      EmissionsFrame(env, c, n - 1);
    }
  }

  lemma {:induction false} EmissionsShow(env: Environment, c: Worker, n: nat)
    requires n <= |c.sensors|
    ensures var t := EmitUpTo(env, c, n);
            c.log <= t.log && Telemetry(env, c, t.log, |c.log|, n)
  {
    if n > 0 {
      EmissionsShow(env, c, n - 1);
      EmissionsFrame(env, c, n - 1);
      var s := EmitUpTo(env, c, n - 1);
      OneEmission(env, c, s, n - 1);
      var t := EmitOne(env, s, n - 1);
      TelemetryNext(env, c, s.log, t.log, |c.log|, n - 1);
    }
  }

  /** Publishing: nothing while a disconnect is in force or the gateway is paused or
      offline; else, for each sensor in order, its value and directly after it, if and
      only if sealing succeeds and degradation does not lose it, the envelope with this
      value. The armed outliers are used up. */
  lemma PublishExact(env: Environment, c: Worker)
    ensures var t := Publish(env, c);
            if (c.active.Some? && c.active.value.kind == Disconnect) || c.status == Paused || c.status == Offline
            then t == c
            else
              && c.log <= t.log && Telemetry(env, c, t.log, |c.log|, |c.sensors|)
              && t == c.(overrides := t.overrides, emissions := c.emissions + |c.sensors|, log := t.log)
              && (forall k :: 0 <= k < |c.sensors| ==> t.overrides[k] == None)
  {
    EmissionsShow(env, c, |c.sensors|);
    EmissionsFrame(env, c, |c.sensors|);
  }

  /** Armed, or a reply: what a tick logs before its telemetry. */
  ghost predicate NoTelemetry(log: seq<Output>, from: nat, to: nat)
    requires to <= |log|
  {
    forall k :: from <= k < to ==> log[k].Armed? || log[k].Replied?
  }

  /** A whole tick: after the armed outliers and the replies comes, under the anomaly and
      the status that the tick leaves in force, the telemetry of all sensors or none. */
  lemma TickTelemetry(env: Environment, s: Worker, t1: Instant, t2: Instant)
    ensures var t := Tick(env, s, t1, t2);
            var c := CheckExpiry(env, DrainControl(s, t1), t2);
            && s.log <= c.log <= t.log && NoTelemetry(t.log, |s.log|, |c.log|)
            && c.sensors == s.sensors && c.emissions == s.emissions && c.active == t.active && c.status == t.status
            && if (t.active.Some? && t.active.value.kind == Disconnect) || t.status == Paused || t.status == Offline
               then t.log == c.log else Telemetry(env, c, t.log, |c.log|, |s.sensors|)
  {
    BeforePublishing(env, s, t1, t2);
    PublishExact(env, CheckExpiry(env, DrainControl(s, t1), t2));
  }

  lemma BeforePublishing(env: Environment, s: Worker, t1: Instant, t2: Instant)
    ensures var c := CheckExpiry(env, DrainControl(s, t1), t2);
            && s.log <= c.log && NoTelemetry(c.log, |s.log|, |c.log|)
            && c.sensors == s.sensors && c.emissions == s.emissions
  {
    DrainOutputs(s, t1);
    ExpiryOutputs(env, DrainControl(s, t1), t2);
  }

  /** The simplest case: one sensor, no anomaly, online, sealing succeeds, and each tick
      hands one more envelope to the buffer. */
  lemma OneSensorSends(env: Environment, c: Worker)
    requires |c.sensors| == 1 && c.active == None && c.status == Online && env.roll(c.emissions).isSealed
    ensures var t := Publish(env, c);
            |t.log| == |c.log| + 2 && t.log[|c.log| + 1] == Buffered(0, Value(env, c, 0), None, Online)
  {
    PublishExact(env, c);
    var t := Publish(env, c);
    assert Entries(env, c.active, c.emissions, 0) == 0 && Entries(env, c.active, c.emissions, 1) == 2;
    assert Shows(env, c, t.log, |c.log| + Entries(env, c.active, c.emissions, 0), 0);
  }
}
