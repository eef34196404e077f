/** How long an injected anomaly stays in force. */
module WorkerAnomalies {
  import opened Domain
  import opened WorkerModel
  import opened WorkerProofs

  /** The duration the worker will use, or None for an anomaly whose parameters
      are missing: that one has no expiry. */
  function Lifetime(cmd: AnomalyCommand): Option<int> {
    match cmd.kind
    case NetworkDegradation =>
      if cmd.degradation.Some? then Some(WrapInt64(cmd.degradation.value.seconds * SECOND)) else None
    case Disconnect =>
      if cmd.disconnectSeconds.Some? then Some(WrapInt64(cmd.disconnectSeconds.value * SECOND)) else None
    case OtherKind(_) => None
  }

  /** Seconds survive the conversion to a 64-bit duration in exactly this range. */
  lemma SecondsFit(seconds: int)
    ensures WrapInt64(seconds * SECOND) == seconds * SECOND
       <==> -9_223_372_036 <= seconds <= 9_223_372_036
  {
  }

  ghost predicate NoInjection(es: seq<Event>) {
    forall k :: 0 <= k < |es| ==> !es[k].PutAnomaly?
  }

  ghost predicate TickedAt(es: seq<Event>, deadline: Instant) {
    exists k :: 0 <= k < |es| && es[k].TickTurn? && es[k].checkAt >= deadline
  }

  lemma StepAnomaly(env: Environment, s: Worker, e: Event)
    requires s.ticker.Some?
    ensures var t := Step(env, s, e);
            && t.ticker.Some?
            && t.active == (if !e.TickTurn? then s.active
                            else if Clears(s, e.drainAt, e.checkAt) then None
                            else PickedUp(s, e.drainAt))
            && (s.anomalyCh == [] && !e.PutAnomaly? ==> t.anomalyCh == [])
  {
    match e
    case TickTurn(t1, t2) =>
      TickState(env, s, t1, t2);
    case CommandTurn =>
      if s.commandCh != [] {
        AnswerOutputs(env, s.(commandCh := s.commandCh[1..]), s.commandCh[0]);
      }
    case _ =>
  }

  /** With no replacement, an anomaly is in force until the first tick whose
      expiry check reads a time at or after its deadline, and never after. */
  lemma {:induction false} InForceUntilDeadline(env: Environment, s: Worker, a: Active, es: seq<Event>)
    requires s.ticker.Some? && s.anomalyCh == [] && NoInjection(es)
    requires s.active == Some(a) || s.active == None
    ensures var w := Run(env, s, es);
            && w.ticker.Some? && w.anomalyCh == []
            && w.active == (if s.active == None || (a.expiresAt != 0 && TickedAt(es, a.expiresAt)) then None else Some(a))
  {
    if es != [] {
      var init, e := es[..|es| - 1], es[|es| - 1];
      InForceUntilDeadline(env, s, a, init);
      StepAnomaly(env, Run(env, s, init), e);
      TickedAtSplit(init, e, a.expiresAt);
      assert es == init + [e];
    }
  }

  lemma TickedAtSplit(init: seq<Event>, e: Event, deadline: Instant)
    ensures TickedAt(init + [e], deadline)
       <==> TickedAt(init, deadline) || (e.TickTurn? && e.checkAt >= deadline)
  {
    var es := init + [e];
    if TickedAt(init, deadline) {
      var k :| 0 <= k < |init| && init[k].TickTurn? && init[k].checkAt >= deadline;
      assert es[k] == init[k];
    }
    if e.TickTurn? && e.checkAt >= deadline {
      assert es[|init|] == e;
    }
  }

  /** The whole life of one anomaly: picked up by a tick at t1 and not replaced,
      it is in force after any run exactly while no expiry check has reached
      t1 + d; one with d <= 0 is gone before the very tick that picked it up
      publishes; one without parameters never expires. */
  lemma AnomalyLifetime(env: Environment, s: Worker, t1: Instant, t2: Instant, es: seq<Event>)
    requires s.ticker.Some? && |s.anomalyCh| == 1 && NoInjection(es)
    requires INT64_LIMIT < t1 <= t2
    ensures var cmd := s.anomalyCh[0];
            var w := Run(env, Tick(env, s, t1, t2), es);
            match Lifetime(cmd)
            case None => w.active == Some(StartAnomaly(cmd, t1))
            case Some(d) =>
              && w.active == (if t2 >= t1 + d || TickedAt(es, t1 + d) then None else Some(StartAnomaly(cmd, t1)))
              && (d <= 0 ==> CheckExpiry(env, DrainControl(s, t1), t2).active == None)
  {
    var a := StartAnomaly(s.anomalyCh[0], t1);
    var p := Tick(env, s, t1, t2);
    StepAnomaly(env, s, TickTurn(t1, t2));
    TickState(env, s, t1, t2);
    assert p.anomalyCh == [];
    DrainOutputs(s, t1);
    ExpiryOutputs(env, DrainControl(s, t1), t2);
    InForceUntilDeadline(env, p, a, es);
  }
}
