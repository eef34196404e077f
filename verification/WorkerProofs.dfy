/** What every run of the worker keeps: held commands, anomaly lifetimes and the
    order of its outputs. */
module WorkerProofs {
  import opened Domain
  import opened Generators
  import opened WorkerModel

  // ----- reading the log -----

  /** The commands the worker has replied to, in order. */
  function Answered(log: seq<Output>): seq<Command> {
    if log == [] then []
    else
      var before := Answered(log[..|log| - 1]);
      var last := log[|log| - 1];
      if last.Replied? then before + [last.cmd] else before
  }

  /** `more` continues `log`, adding only outliers armed. */
  ghost predicate Arms(log: seq<Output>, more: seq<Output>) {
    && log <= more
    && forall k :: |log| <= k < |more| ==> more[k].Armed?
  }

  ghost predicate EmitsTelemetry(log: seq<Output>, more: seq<Output>) {
    && log <= more
    && forall k :: |log| <= k < |more| ==> more[k].Emitted? || more[k].Buffered?
  }

  /** `more` continues `log` with one reply to each of `cmds`, in order. */
  ghost predicate RepliesTo(log: seq<Output>, more: seq<Output>, cmds: seq<Command>) {
    && log <= more
    && |more| == |log| + |cmds|
    && forall k :: |log| <= k < |more| ==> more[k].Replied? && more[k].cmd == cmds[k - |log|]
  }

  lemma {:induction false} AnsweredExtends(log: seq<Output>, more: seq<Output>)
    requires log <= more
    requires forall k :: |log| <= k < |more| ==> !more[k].Replied?
    ensures Answered(more) == Answered(log)
  {
    if |more| != |log| {
      AnsweredExtends(log, more[..|more| - 1]);
    } else {
      assert more == log;
    }
  }

  lemma {:induction false} AnsweredReplies(log: seq<Output>, more: seq<Output>, cmds: seq<Command>)
    requires RepliesTo(log, more, cmds)
    ensures Answered(more) == Answered(log) + cmds
  {
    if cmds != [] {
      AnsweredReplies(log, more[..|more| - 1], cmds[..|cmds| - 1]);
      assert cmds == cmds[..|cmds| - 1] + [cmds[|cmds| - 1]];
    } else {
      assert more == log;
    }
  }

  // ----- what each part of a step leaves alone -----

  /** `t` is `s` up to the store, the configuration queue and the log. */
  ghost predicate AnswersOnly(s: Worker, t: Worker) {
    && t == s.(row := t.row, storeCalls := t.storeCalls, configCh := t.configCh, log := t.log, writes := t.writes)
    && (|s.configCh| <= CAPACITY ==> |t.configCh| <= CAPACITY)
  }

  lemma HandleConfigFrame(env: Environment, s: Worker, payload: Option<ConfigUpdate>)
    ensures AnswersOnly(s, HandleConfig(env, s, payload).0)
    ensures HandleConfig(env, s, payload).0.log == s.log
  {
    if payload.Some? {
      var u := payload.value;
      var (s1, kept) := PersistFrequency(env, s, u);
      assert AnswersOnly(s, s1) && s1.log == s.log && s1.configCh == s.configCh;
      var (s2, ok) := PersistStatus(env, s1, u);
      assert AnswersOnly(s, s2) && s2.log == s.log && s2.configCh == s.configCh;
    }
  }

  lemma AnswerOutputs(env: Environment, s: Worker, cmd: Command)
    ensures var t := Answer(env, s, cmd);
            && AnswersOnly(s, t)
            && |t.log| == |s.log| + 1
            && s.log <= t.log
            && t.log[|s.log|].Replied?
            && t.log[|s.log|].cmd == cmd
            && t.log[|s.log|].under == s.active
  {
    match cmd.body
    case Configure(update) => HandleConfigFrame(env, s, update);
    case _ =>
  }

  lemma {:induction false} AnswerAllOutputs(env: Environment, s: Worker, cmds: seq<Command>)
    ensures var t := AnswerAll(env, s, cmds);
            && AnswersOnly(s, t)
            && RepliesTo(s.log, t.log, cmds)
            && (forall k :: |s.log| <= k < |t.log| ==> t.log[k].Replied? && t.log[k].under == s.active)
  {
    if cmds != [] {
      var init := AnswerAll(env, s, cmds[..|cmds| - 1]);
      AnswerAllOutputs(env, s, cmds[..|cmds| - 1]);
      AnswerOutputs(env, init, cmds[|cmds| - 1]);
    }
  }

  lemma {:induction false} ArmAllOutputs(s: Worker, outliers: seq<OutlierCommand>)
    ensures var t := ArmAll(s, outliers);
            && t == s.(overrides := t.overrides, log := t.log)
            && Arms(s.log, t.log)
  {
    if outliers != [] {
      ArmAllOutputs(s, outliers[..|outliers| - 1]);
    }
  }

  lemma EmitOneOutputs(env: Environment, s: Worker, i: nat)
    requires i < |s.sensors|
    ensures var t := EmitOne(env, s, i);
            && t == s.(overrides := t.overrides, emissions := t.emissions, log := t.log)
            && EmitsTelemetry(s.log, t.log)
            && (forall k :: |s.log| <= k < |t.log| && t.log[k].Buffered? ==>
                  t.log[k].under == s.active && t.log[k].gateway == s.status)
  {
  }

  lemma {:induction false} EmitOutputs(env: Environment, s: Worker, n: nat)
    requires n <= |s.sensors|
    ensures var t := EmitUpTo(env, s, n);
            && t == s.(overrides := t.overrides, emissions := t.emissions, log := t.log)
            && EmitsTelemetry(s.log, t.log)
            && (forall k :: |s.log| <= k < |t.log| && t.log[k].Buffered? ==>
                  t.log[k].under == s.active && t.log[k].gateway == s.status)
  {
    if n != 0 {
      EmitOutputs(env, s, n - 1);
      var before := EmitUpTo(env, s, n - 1);
      EmitOneOutputs(env, before, n - 1);
      var t := EmitOne(env, before, n - 1);
    }
  }

  function Rest<T>(ch: seq<T>): seq<T> {
    if ch == [] then [] else ch[1..]
  }

  lemma DrainConfigFrame(s: Worker)
    ensures var g := DrainConfig(s);
            && g == s.(configCh := g.configCh, freq := g.freq, status := g.status, ticker := g.ticker, panicked := g.panicked)
            && g.configCh == Rest(s.configCh)
            && (s.ticker.Some? ==> g.ticker.Some?)
  {
  }

  function PickedUp(s: Worker, now: Instant): Option<Active> {
    if s.anomalyCh == [] then s.active else Some(StartAnomaly(s.anomalyCh[0], now))
  }

  /** Draining touches the control channels and what they configure. */
  lemma DrainOutputs(s: Worker, now: Instant)
    ensures var d := DrainControl(s, now);
            && Arms(s.log, d.log)
            && d == DrainConfig(s).(active := PickedUp(s, now), anomalyCh := Rest(s.anomalyCh), outlierCh := [],
                                    overrides := d.overrides, log := d.log)
  {
    DrainConfigFrame(s);
    var a := DrainAnomaly(DrainConfig(s), now);
    ArmAllOutputs(a.(outlierCh := []), a.outlierCh);
  }

  lemma ExpiryOutputs(env: Environment, d: Worker, now: Instant)
    ensures var c := CheckExpiry(env, d, now);
            var cleared := d.active.Some? && Expired(d.active.value, now);
            && RepliesTo(d.log, c.log, if cleared then d.held else [])
            && (forall k :: |d.log| <= k < |c.log| ==> c.log[k].Replied? && c.log[k].under == None)
            && (if cleared then AnswersOnly(d.(active := None, held := []), c) else c == d)
  {
    if d.active.Some? && Expired(d.active.value, now) {
      AnswerAllOutputs(env, d.(active := None), d.held);
    }
  }

  lemma PublishOutputs(env: Environment, c: Worker)
    ensures var p := Publish(env, c);
            && p == c.(overrides := p.overrides, emissions := p.emissions, log := p.log)
            && EmitsTelemetry(c.log, p.log)
            && (p.log != c.log ==> !Silenced(c.active, c.status))
            && (forall k :: |c.log| <= k < |p.log| && p.log[k].Buffered? ==>
                  p.log[k].under == c.active && p.log[k].gateway == c.status)
  {
    EmitOutputs(env, c, |c.sensors|);
  }

  // ----- held commands -----

  ghost predicate OutputAllowed(o: Output) {
    && (o.Replied? ==> o.under == None)
    && (o.Buffered? ==> !Silenced(o.under, o.gateway))
  }

  ghost predicate OutputsAllowed(log: seq<Output>) {
    forall k :: 0 <= k < |log| ==> OutputAllowed(log[k])
  }

  ghost predicate HoldInv(s: Worker) {
    && (s.active.None? ==> s.held == [])
    && OutputsAllowed(s.log)
    && |s.commandCh| <= CAPACITY
    && |s.configCh| <= CAPACITY
    && |s.anomalyCh| <= CAPACITY
    && |s.outlierCh| <= CAPACITY
  }

  /** Whether the tick ends the anomaly in force after its drain. */
  predicate Clears(s: Worker, t1: Instant, t2: Instant) {
    var active := PickedUp(s, t1);
    active.Some? && Expired(active.value, t2)
  }

  /** A tick first arms outliers, then, if it clears an anomaly, answers every
      held command once and in arrival order, and only then emits telemetry. */
  lemma TickOutputs(env: Environment, s: Worker, t1: Instant, t2: Instant)
    ensures var d := DrainControl(s, t1);
            var c := CheckExpiry(env, d, t2);
            var p := Publish(env, c);
            && Arms(s.log, d.log)
            && RepliesTo(d.log, c.log, if Clears(s, t1, t2) then s.held else [])
            && EmitsTelemetry(c.log, p.log)
            && (p.log != c.log ==> !Silenced(c.active, c.status))
  {
    DrainOutputs(s, t1);
    DrainConfigFrame(s);
    var d := DrainControl(s, t1);
    ExpiryOutputs(env, d, t2);
    PublishOutputs(env, CheckExpiry(env, d, t2));
  }

  /** What a tick does to the anomaly, the held commands and the other queues. */
  lemma TickState(env: Environment, s: Worker, t1: Instant, t2: Instant)
    ensures var p := Tick(env, s, t1, t2);
            && p.held == (if Clears(s, t1, t2) then [] else s.held)
            && p.active == (if Clears(s, t1, t2) then None else PickedUp(s, t1))
            && p.commandCh == s.commandCh
            && p.anomalyCh == Rest(s.anomalyCh)
            && (s.ticker.Some? ==> p.ticker.Some?)
  {
    DrainOutputs(s, t1);
    DrainConfigFrame(s);
    var d := DrainControl(s, t1);
    ExpiryOutputs(env, d, t2);
    PublishOutputs(env, CheckExpiry(env, d, t2));
  }

  lemma AllowedExtends(log: seq<Output>, more: seq<Output>)
    requires log <= more && OutputsAllowed(log)
    requires forall k :: |log| <= k < |more| ==> OutputAllowed(more[k])
    ensures OutputsAllowed(more)
  {
  }

  lemma DrainKeepsHolding(s: Worker, now: Instant)
    requires HoldInv(s)
    ensures HoldInv(DrainControl(s, now))
  {
    DrainOutputs(s, now);
    DrainConfigFrame(s);
    var d := DrainControl(s, now);
    AllowedExtends(s.log, d.log);
  }

  lemma ExpiryKeepsHolding(env: Environment, d: Worker, now: Instant)
    requires HoldInv(d)
    ensures HoldInv(CheckExpiry(env, d, now))
  {
    ExpiryOutputs(env, d, now);
    AllowedExtends(d.log, CheckExpiry(env, d, now).log);
  }

  lemma PublishKeepsHolding(env: Environment, c: Worker)
    requires HoldInv(c)
    ensures HoldInv(Publish(env, c))
  {
    PublishOutputs(env, c);
    var p := Publish(env, c);
    AllowedExtends(c.log, p.log);
  }

  lemma TickKeepsHolding(env: Environment, s: Worker, t1: Instant, t2: Instant)
    requires HoldInv(s)
    ensures HoldInv(Tick(env, s, t1, t2))
  {
    DrainKeepsHolding(s, t1);
    var d := DrainControl(s, t1);
    ExpiryKeepsHolding(env, d, t2);
    PublishKeepsHolding(env, CheckExpiry(env, d, t2));
  }

  lemma CommandKeepsHolding(env: Environment, s: Worker)
    requires HoldInv(s)
    ensures HoldInv(TakeCommand(env, s))
  {
    if s.commandCh != [] {
      var t := s.(commandCh := s.commandCh[1..]);
      AnswerOutputs(env, t, s.commandCh[0]);
      if t.active.None? {
        AllowedExtends(t.log, Answer(env, t, s.commandCh[0]).log);
      }
    }
  }

  lemma StepKeepsHolding(env: Environment, s: Worker, e: Event)
    requires HoldInv(s)
    ensures HoldInv(Step(env, s, e))
  {
    match e
    case TickTurn(t1, t2) => TickKeepsHolding(env, s, t1, t2);
    case CommandTurn => CommandKeepsHolding(env, s);
    case _ =>
  }

  /** In every run: without an active anomaly nothing is held back, no reply is
      sent while an anomaly is active, and an envelope is handed over only with
      no disconnect in force and a status that is neither paused nor offline. */
  lemma {:induction false} RunKeepsHolding(env: Environment, row: Row, sensors: seq<Sensor>, es: seq<Event>)
    ensures HoldInv(Run(env, Started(row, sensors), es))
  {
    if es != [] {
      RunKeepsHolding(env, row, sensors, es[..|es| - 1]);
      StepKeepsHolding(env, Run(env, Started(row, sensors), es[..|es| - 1]), es[|es| - 1]);
    }
  }

  // ----- conservation of commands -----

  /** Every command the worker has received, in arrival order. */
  function Received(s: Worker): seq<Command> {
    Answered(s.log) + s.held + s.commandCh
  }

  lemma AnsweredInTick(start: seq<Output>, drained: seq<Output>, flushed: seq<Output>, end: seq<Output>, cmds: seq<Command>)
    requires Arms(start, drained) && RepliesTo(drained, flushed, cmds) && EmitsTelemetry(flushed, end)
    ensures Answered(end) == Answered(start) + cmds
  {
    AnsweredExtends(start, drained);
    AnsweredReplies(drained, flushed, cmds);
    AnsweredExtends(flushed, end);
  }

  lemma TickAnswers(env: Environment, s: Worker, t1: Instant, t2: Instant)
    ensures Answered(Tick(env, s, t1, t2).log) == Answered(s.log) + (if Clears(s, t1, t2) then s.held else [])
  {
    DrainOutputs(s, t1);
    var d := DrainControl(s, t1);
    var c := CheckExpiry(env, d, t2);
    TickOutputs(env, s, t1, t2);
    AnsweredInTick(s.log, d.log, c.log, Tick(env, s, t1, t2).log, if Clears(s, t1, t2) then s.held else []);
  }

  lemma TickConserves(env: Environment, s: Worker, t1: Instant, t2: Instant)
    ensures Received(Tick(env, s, t1, t2)) == Received(s)
  {
    TickAnswers(env, s, t1, t2);
    TickState(env, s, t1, t2);
  }

  lemma AnswerAnswers(env: Environment, s: Worker, cmd: Command)
    ensures var t := Answer(env, s, cmd);
            Answered(t.log) == Answered(s.log) + [cmd] && t.held == s.held && t.commandCh == s.commandCh
  {
    AnswerOutputs(env, s, cmd);
    var t := Answer(env, s, cmd);
    assert t.log[..|t.log| - 1] == s.log;
  }

  /** Receiving a command answers it at once or, during an anomaly, holds it. */
  lemma CommandState(env: Environment, s: Worker)
    requires s.commandCh != []
    ensures var t, cmd := TakeCommand(env, s), s.commandCh[0];
            && t.commandCh == s.commandCh[1..]
            && t.held == (if s.active.Some? then s.held + [cmd] else s.held)
            && Answered(t.log) == (if s.active.Some? then Answered(s.log) else Answered(s.log) + [cmd])
  {
    AnswerAnswers(env, s.(commandCh := s.commandCh[1..]), s.commandCh[0]);
  }

  lemma FirstMoves(answered: seq<Command>, held: seq<Command>, ch: seq<Command>)
    requires ch != []
    ensures answered + (held + [ch[0]]) + ch[1..] == answered + held + ch
    ensures held == [] ==> (answered + [ch[0]]) + held + ch[1..] == answered + held + ch
  {
  }

  lemma CommandConserves(env: Environment, s: Worker)
    requires s.active.None? ==> s.held == []
    ensures Received(TakeCommand(env, s)) == Received(s)
  {
    if s.commandCh != [] {
      CommandState(env, s);
      FirstMoves(Answered(s.log), s.held, s.commandCh);
    }
  }

  /** The remaining events leave commands and replies alone. */
  lemma QuietEvents(env: Environment, s: Worker, e: Event)
    requires !e.Offer? && !e.CommandTurn? && !e.TickTurn?
    ensures var t := Step(env, s, e);
            t.log == s.log && t.held == s.held && t.commandCh == s.commandCh && t.active == s.active
  {
  }

  /** No step loses, duplicates or reorders a command; an offer adds its command
      at the end exactly when commandCh has room. */
  lemma StepConserves(env: Environment, s: Worker, e: Event)
    requires s.active.None? ==> s.held == []
    ensures Received(Step(env, s, e))
         == Received(s) + (if e.Offer? && |s.commandCh| < CAPACITY then [e.cmd] else [])
  {
    match e
    case TickTurn(t1, t2) => TickConserves(env, s, t1, t2);
    case CommandTurn => CommandConserves(env, s);
    case _ =>
  }
}
