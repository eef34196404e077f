/** The send frequency: what the store holds, what configCh will make of the
    worker's own copy, and what the ticker runs on. */
module WorkerFrequency {
  import opened Domain
  import opened WorkerModel
  import opened WorkerProofs

  // ----- the stored and the pending frequency -----

  predicate Sets(u: ConfigUpdate) {
    u.freq.Some? && u.freq.value > 0
  }

  /** The worker's frequency once every pending update has been drained;
      an update whose frequency is not positive leaves it alone. */
  function Fold(freq: int, pending: seq<ConfigUpdate>): int {
    if pending == [] then freq
    else
      var last := pending[|pending| - 1];
      if Sets(last) then last.freq.value else Fold(freq, pending[..|pending| - 1])
  }

  function LastStored(initial: int, writes: seq<FrequencyWrite>): int {
    if writes == [] then initial
    else
      var last := writes[|writes| - 1];
      if last.stored then last.freq else LastStored(initial, writes[..|writes| - 1])
  }

  function LastQueued(initial: int, writes: seq<FrequencyWrite>): int {
    if writes == [] then initial
    else
      var last := writes[|writes| - 1];
      if last.queued then last.freq else LastQueued(initial, writes[..|writes| - 1])
  }

  lemma {:induction false} FoldFirst(freq: int, pending: seq<ConfigUpdate>)
    requires pending != []
    ensures Fold(freq, pending)
         == Fold(if Sets(pending[0]) then pending[0].freq.value else freq, pending[1..])
  {
    if |pending| > 1 && !Sets(pending[|pending| - 1]) {
      FoldFirst(freq, pending[..|pending| - 1]);
      assert pending[..|pending| - 1][1..] == pending[1..][..|pending| - 2];
    }
  }

  ghost predicate FrequencyInv(s: Worker, initial: int) {
    && s.row.freq == LastStored(initial, s.writes)
    && Fold(s.freq, s.configCh) == LastQueued(initial, s.writes)
  }

  lemma NoteKeepsFrequency(s: Worker, t: Worker, u: ConfigUpdate, initial: int, stored: bool, queued: bool)
    requires FrequencyInv(s, initial)
    requires t.freq == s.freq && t.writes == s.writes
    requires t.row.freq == (if stored && Sets(u) then u.freq.value else s.row.freq)
    requires t.configCh == (if queued then s.configCh + [u] else s.configCh)
    ensures FrequencyInv(NoteWrite(t, u, stored, queued), initial)
  {
    assert queued ==> t.configCh[..|t.configCh| - 1] == s.configCh;
    var n := NoteWrite(t, u, stored, queued);
    if Sets(u) {
      assert n.writes[..|n.writes| - 1] == s.writes;
    }
  }

  lemma ConfigKeepsFrequency(env: Environment, s: Worker, u: ConfigUpdate, initial: int)
    requires FrequencyInv(s, initial)
    ensures FrequencyInv(HandleConfig(env, s, Some(u)).0, initial)
  {
    var (s1, kept) := PersistFrequency(env, s, u);
    if kept {
      var (s2, ok) := PersistStatus(env, s1, u);
      assert s2.row.freq == (if Sets(u) then u.freq.value else s.row.freq);
      assert s2.freq == s.freq && s2.writes == s.writes && s2.configCh == s.configCh;
      if ok && |s2.configCh| < CAPACITY {
        NoteKeepsFrequency(s, s2.(configCh := s2.configCh + [u]), u, initial, true, true);
      } else {
        NoteKeepsFrequency(s, s2, u, initial, true, false);
      }
    }
  }

  lemma AnswerKeepsFrequency(env: Environment, s: Worker, cmd: Command, initial: int)
    requires FrequencyInv(s, initial)
    ensures FrequencyInv(Answer(env, s, cmd), initial)
  {
    match cmd.body
    case Configure(Some(u)) => ConfigKeepsFrequency(env, s, u, initial);
    case _ =>
  }

  lemma {:induction false} AnswerAllKeepsFrequency(env: Environment, s: Worker, cmds: seq<Command>, initial: int)
    requires FrequencyInv(s, initial)
    ensures FrequencyInv(AnswerAll(env, s, cmds), initial)
  {
    if cmds != [] {
      AnswerAllKeepsFrequency(env, s, cmds[..|cmds| - 1], initial);
      AnswerKeepsFrequency(env, AnswerAll(env, s, cmds[..|cmds| - 1]), cmds[|cmds| - 1], initial);
    }
  }

  lemma DrainKeepsFrequency(s: Worker, now: Instant, initial: int)
    requires FrequencyInv(s, initial)
    ensures FrequencyInv(DrainControl(s, now), initial)
  {
    DrainOutputs(s, now);
    if s.configCh != [] {
      FoldFirst(s.freq, s.configCh);
      assert DrainConfig(s).freq == if Sets(s.configCh[0]) then s.configCh[0].freq.value else s.freq;
    }
  }

  lemma StepKeepsFrequency(env: Environment, s: Worker, e: Event, initial: int)
    requires FrequencyInv(s, initial)
    ensures FrequencyInv(Step(env, s, e), initial)
  {
    match e
    case TickTurn(t1, t2) =>
      DrainKeepsFrequency(s, t1, initial);
      var d := DrainControl(s, t1);
      AnswerAllKeepsFrequency(env, d.(active := None), d.held, initial);
      PublishOutputs(env, CheckExpiry(env, d, t2));
    case CommandTurn =>
      if s.commandCh != [] {
        AnswerKeepsFrequency(env, s.(commandCh := s.commandCh[1..]), s.commandCh[0], initial);
      }
    case ConfigTurn =>
      if s.configCh != [] {
        FoldFirst(s.freq, s.configCh);
      }
    case PutConfig(u) =>
      if |s.configCh| < CAPACITY {
        NoteKeepsFrequency(s, s.(configCh := s.configCh + [u]), u, initial, false, true);
      }
    case _ =>
  }

  lemma {:induction false} RunKeepsFrequency(env: Environment, row: Row, sensors: seq<Sensor>, es: seq<Event>)
    ensures FrequencyInv(Run(env, Started(row, sensors), es), row.freq)
  {
    if es != [] {
      RunKeepsFrequency(env, row, sensors, es[..|es| - 1]);
      StepKeepsFrequency(env, Run(env, Started(row, sensors), es[..|es| - 1]), es[|es| - 1], row.freq);
    }
  }

  ghost predicate Committed(writes: seq<FrequencyWrite>) {
    forall k :: 0 <= k < |writes| ==> writes[k].stored && writes[k].queued
  }

  ghost predicate Agree(s: Worker) {
    s.row.freq == Fold(s.freq, s.configCh)
  }

  lemma CommittedWritesAgree(initial: int, writes: seq<FrequencyWrite>)
    requires Committed(writes)
    ensures LastStored(initial, writes) == LastQueued(initial, writes)
  {
  }

  /** In every run the stored frequency is the last one persisted and the pending
      one the last one queued. They agree whenever each frequency was both stored
      and queued: configCh fed by commands only, none refused after persisting. */
  lemma StoredFrequencyIsPending(env: Environment, row: Row, sensors: seq<Sensor>, es: seq<Event>)
    ensures var w := Run(env, Started(row, sensors), es);
            && (Agree(w) <==> LastStored(row.freq, w.writes) == LastQueued(row.freq, w.writes))
            && (Committed(w.writes) ==> Agree(w))
  {
    RunKeepsFrequency(env, row, sensors, es);
    var w := Run(env, Started(row, sensors), es);
    if Committed(w.writes) {
      CommittedWritesAgree(row.freq, w.writes);
    }
  }

  /** A config command breaks the agreement exactly when it persists a new
      frequency and is then refused, by the status write or a full channel. */
  lemma CommandKeepsAgreement(env: Environment, s: Worker, u: ConfigUpdate)
    requires Agree(s)
    ensures var persists := Sets(u) && !env.storeFails(s.storeCalls);
            var calls := s.storeCalls + if u.freq.Some? then 1 else 0;
            var refused := (u.status.Some? && env.storeFails(calls)) || |s.configCh| >= CAPACITY;
            Agree(HandleConfig(env, s, Some(u)).0) <==> !(persists && refused && u.freq.value != s.row.freq)
  {
    var (s1, kept) := PersistFrequency(env, s, u);
    var (s2, ok) := PersistStatus(env, s1, u);
    assert s2.freq == s.freq && s2.configCh == s.configCh;
    assert kept ==> s2.row.freq == if Sets(u) then u.freq.value else s.row.freq;
    assert (s.configCh + [u])[..|s.configCh|] == s.configCh;
  }

  /** A run in which the two diverge: the status write fails after the frequency
      was persisted, so the command is refused with the new frequency stored. */
  lemma RefusedCommandDiverges()
    ensures exists env, row, es :: !Agree(Run(env, Started(row, []), es))
  {
    var env := Environment(n => n == 1, n => Roll(Generators.Draw(0.0, 0.0, 0.0, 0.0), true, 0.0));
    var row := Row(1000, Online, "");
    var cmd := Command("c", Configure(Some(ConfigUpdate(Some(2000), Some(Paused)))), 0);
    var start := Started(row, []);
    var es := [Offer(cmd), CommandTurn];
    var offered := Step(env, start, Offer(cmd));
    assert es[..1] == [Offer(cmd)] && [Offer(cmd)][..0] == [];
    assert Run(env, start, es[..1]) == Step(env, Run(env, start, []), Offer(cmd)) == offered;
    assert Run(env, start, es) == TakeCommand(env, offered);
    assert !Agree(Run(env, start, es));
  }

  // ----- which held updates a flush accepts -----

  predicate WellFormed(cmd: Command) {
    && cmd.body.Configure? && cmd.body.update.Some?
    && (cmd.body.update.value.freq.Some? ==> cmd.body.update.value.freq.value > 0)
  }

  /** The well-formed updates among the commands, in order. */
  function Updates(cmds: seq<Command>): seq<ConfigUpdate> {
    if cmds == [] then []
    else
      var before := Updates(cmds[..|cmds| - 1]);
      var last := cmds[|cmds| - 1];
      if WellFormed(last) then before + [last.body.update.value] else before
  }

  ghost predicate StoreHealthy(env: Environment) {
    forall k: nat :: !env.storeFails(k)
  }

  /** The reply due to the k-th command when `free` slots of configCh are free. */
  function Due(cmds: seq<Command>, k: nat, free: nat): AckStatus
    requires k < |cmds|
  {
    match cmds[k].body
    case Configure(_) => if WellFormed(cmds[k]) && |Updates(cmds[..k])| < free then Ack else Nack
    case PushFirmware(version) => if version.Some? then Ack else Nack
    case UnknownType => Nack
  }

  lemma AnswerWhenHealthy(env: Environment, s: Worker, cmd: Command)
    requires StoreHealthy(env)
    ensures var t := Answer(env, s, cmd);
            var room := |s.configCh| < CAPACITY;
            && |t.log| == |s.log| + 1 && t.log[|s.log|].Replied? && s.log <= t.log
            && t.configCh == (if WellFormed(cmd) && room then s.configCh + [cmd.body.update.value] else s.configCh)
            && t.log[|s.log|].status == match cmd.body
                 case Configure(_) => if WellFormed(cmd) && room then Ack else Nack
                 case PushFirmware(version) => if version.Some? then Ack else Nack
                 case UnknownType => Nack
  {
    match cmd.body
    case Configure(Some(u)) => HandleConfigFrame(env, s, Some(u));
    case _ =>
  }

  function FirstOf(updates: seq<ConfigUpdate>, free: nat): seq<ConfigUpdate> {
    updates[..Min(|updates|, free)]
  }

  /** One more update joins the queue if there is room for it. */
  lemma OneMore(queue: seq<ConfigUpdate>, updates: seq<ConfigUpdate>, more: seq<ConfigUpdate>, free: nat)
    requires |more| <= 1 && |queue| + free == CAPACITY
    ensures var sofar := queue + FirstOf(updates, free);
            queue + FirstOf(updates + more, free) == if |sofar| < CAPACITY then sofar + more else sofar
  {
    if |updates| < free {
      assert FirstOf(updates, free) == updates && FirstOf(updates + more, free) == updates + more;
    } else {
      assert FirstOf(updates + more, free) == updates[..free] == FirstOf(updates, free);
    }
  }

  function UpdateOf(cmd: Command): seq<ConfigUpdate> {
    if WellFormed(cmd) then [cmd.body.update.value] else []
  }

  lemma QueueNext(env: Environment, t: Worker, cmd: Command, queue: seq<ConfigUpdate>, updates: seq<ConfigUpdate>)
    requires StoreHealthy(env) && |queue| <= CAPACITY
    requires t.configCh == queue + FirstOf(updates, CAPACITY - |queue|)
    ensures Answer(env, t, cmd).configCh == queue + FirstOf(updates + UpdateOf(cmd), CAPACITY - |queue|)
  {
    AnswerWhenHealthy(env, t, cmd);
    OneMore(queue, updates, UpdateOf(cmd), CAPACITY - |queue|);
  }

  lemma UpdatesNext(cmds: seq<Command>)
    requires cmds != []
    ensures Updates(cmds) == Updates(cmds[..|cmds| - 1]) + UpdateOf(cmds[|cmds| - 1])
  {
  }

  /** The updates a flush with a healthy store puts into configCh. */
  lemma {:induction false} FlushQueues(env: Environment, s: Worker, cmds: seq<Command>)
    requires StoreHealthy(env) && |s.configCh| <= CAPACITY
    ensures AnswerAll(env, s, cmds).configCh == s.configCh + FirstOf(Updates(cmds), CAPACITY - |s.configCh|)
  {
    if cmds != [] {
      var n := |cmds| - 1;
      FlushQueues(env, s, cmds[..n]);
      QueueNext(env, AnswerAll(env, s, cmds[..n]), cmds[n], s.configCh, Updates(cmds[..n]));
      UpdatesNext(cmds);
    }
  }

  lemma LastReply(env: Environment, s: Worker, cmds: seq<Command>)
    requires StoreHealthy(env) && |s.configCh| <= CAPACITY && cmds != []
    ensures var t, before := AnswerAll(env, s, cmds), AnswerAll(env, s, cmds[..|cmds| - 1]);
            && before.log <= t.log && |t.log| == |before.log| + 1
            && t.log[|before.log|].Replied?
            && t.log[|before.log|].status == Due(cmds, |cmds| - 1, CAPACITY - |s.configCh|)
  {
    FlushQueues(env, s, cmds[..|cmds| - 1]);
    AnswerWhenHealthy(env, AnswerAll(env, s, cmds[..|cmds| - 1]), cmds[|cmds| - 1]);
  }

  lemma {:induction false} FlushReplies(env: Environment, s: Worker, cmds: seq<Command>)
    requires StoreHealthy(env) && |s.configCh| <= CAPACITY
    ensures var t := AnswerAll(env, s, cmds);
            && |t.log| == |s.log| + |cmds|
            && (forall j :: |s.log| <= j < |t.log| ==>
                  t.log[j].Replied? && t.log[j].status == Due(cmds, j - |s.log|, CAPACITY - |s.configCh|))
  {
    if cmds != [] {
      var n, free := |cmds| - 1, CAPACITY - |s.configCh|;
      FlushReplies(env, s, cmds[..n]);
      LastReply(env, s, cmds);
      forall k | 0 <= k < n ensures Due(cmds, k, free) == Due(cmds[..n], k, free) {
        assert cmds[..n][..k] == cmds[..k];
      }
    }
  }

  /** The tick that ends an anomaly, whatever mix of commands it held and with a
      healthy store, accepts exactly the first min(n, f) of its n well-formed
      updates, f being the free slots, and queues those updates in order. */
  lemma ExpiryAcceptsFirst(env: Environment, s: Worker, now: Instant)
    requires StoreHealthy(env) && |s.configCh| <= CAPACITY
    requires s.active.Some? && Expired(s.active.value, now)
    ensures var t := CheckExpiry(env, s, now);
            var free := CAPACITY - |s.configCh|;
            && |t.log| == |s.log| + |s.held|
            && (forall j :: |s.log| <= j < |t.log| ==>
                  t.log[j].Replied? && t.log[j].status == Due(s.held, j - |s.log|, free))
            && t.configCh == s.configCh + FirstOf(Updates(s.held), free)
  {
    FlushReplies(env, s.(active := None), s.held);
    FlushQueues(env, s.(active := None), s.held);
  }

  // ----- the ticker -----

  /** The ticker runs exactly while the frequency is positive, with that
      frequency's period; otherwise the loop listens to configCh instead. */
  ghost predicate TickerInv(s: Worker) {
    && (s.configLive <==> s.ticker.None?)
    && s.ticker == (if s.freq > 0 then Some(TickerPeriod(s.freq)) else None)
  }

  lemma ConfigKeepsTicker(s: Worker)
    requires TickerInv(s)
    ensures s.ticker.Some? ==> TickerInv(DrainConfig(s))
    ensures s.configLive ==> TickerInv(TakeConfig(s))
    ensures s.freq > 0 ==> DrainConfig(s).freq > 0
  {
  }

  lemma TickKeepsTicker(env: Environment, s: Worker, t1: Instant, t2: Instant)
    requires TickerInv(s) && s.ticker.Some?
    ensures TickerInv(Tick(env, s, t1, t2))
    ensures s.freq > 0 ==> Tick(env, s, t1, t2).freq > 0
  {
    ConfigKeepsTicker(s);
    DrainOutputs(s, t1);
    var d := DrainControl(s, t1);
    ExpiryOutputs(env, d, t2);
    PublishOutputs(env, CheckExpiry(env, d, t2));
  }

  lemma StepKeepsTicker(env: Environment, s: Worker, e: Event)
    requires TickerInv(s)
    ensures TickerInv(Step(env, s, e))
    ensures s.freq > 0 ==> Step(env, s, e).freq > 0
  {
    match e
    case TickTurn(t1, t2) => if s.ticker.Some? { TickKeepsTicker(env, s, t1, t2); }
    case CommandTurn =>
      if s.commandCh != [] {
        AnswerOutputs(env, s.(commandCh := s.commandCh[1..]), s.commandCh[0]);
      }
    case ConfigTurn => ConfigKeepsTicker(s);
    case _ =>
  }

  lemma AnswerKeepsRow(env: Environment, s: Worker, cmd: Command)
    requires s.row.freq > 0
    ensures Answer(env, s, cmd).row.freq > 0
  {
    match cmd.body
    case Configure(Some(u)) =>
      var (s1, kept) := PersistFrequency(env, s, u);
      assert s1.row.freq > 0;
      assert PersistStatus(env, s1, u).0.row.freq > 0;
    case _ =>
  }

  lemma {:induction false} AnswerAllKeepsRow(env: Environment, s: Worker, cmds: seq<Command>)
    requires s.row.freq > 0
    ensures AnswerAll(env, s, cmds).row.freq > 0
  {
    if cmds != [] {
      AnswerAllKeepsRow(env, s, cmds[..|cmds| - 1]);
      AnswerKeepsRow(env, AnswerAll(env, s, cmds[..|cmds| - 1]), cmds[|cmds| - 1]);
    }
  }

  lemma StepKeepsRow(env: Environment, s: Worker, e: Event)
    requires s.row.freq > 0
    ensures Step(env, s, e).row.freq > 0
  {
    match e
    case TickTurn(t1, t2) =>
      DrainOutputs(s, t1);
      DrainConfigFrame(s);
      var d := DrainControl(s, t1);
      AnswerAllKeepsRow(env, d.(active := None), d.held);
      PublishOutputs(env, CheckExpiry(env, d, t2));
    case CommandTurn =>
      if s.commandCh != [] {
        AnswerKeepsRow(env, s.(commandCh := s.commandCh[1..]), s.commandCh[0]);
      }
    case _ =>
  }

  /** In every run exactly one of ticker and configCh drives the loop; from a
      positive frequency the worker's and the stored frequency stay positive,
      so the ticker is the live one throughout. */
  lemma {:induction false} RunKeepsTicker(env: Environment, row: Row, sensors: seq<Sensor>, es: seq<Event>)
    ensures var w := Run(env, Started(row, sensors), es);
            && TickerInv(w)
            && (row.freq > 0 ==> w.freq > 0 && w.row.freq > 0 && w.ticker == Some(TickerPeriod(w.freq)))
  {
    if es != [] {
      RunKeepsTicker(env, row, sensors, es[..|es| - 1]);
      var before := Run(env, Started(row, sensors), es[..|es| - 1]);
      StepKeepsTicker(env, before, es[|es| - 1]);
      if row.freq > 0 {
        StepKeepsRow(env, before, es[|es| - 1]);
      }
    }
  }

  /** The period of a positive frequency is exact, hence positive, up to
      MAX_FREQUENCY and no further. */
  lemma PeriodExact(freq: int)
    requires freq > 0
    ensures TickerPeriod(freq) == freq * MILLISECOND <==> freq <= MAX_FREQUENCY
    ensures TickerPeriod(MAX_FREQUENCY + 1) < 0
  {
  }

  ghost predicate Within(u: ConfigUpdate) {
    u.freq.Some? ==> u.freq.value <= MAX_FREQUENCY
  }

  ghost predicate CommandWithin(cmd: Command) {
    cmd.body.Configure? && cmd.body.update.Some? ==> Within(cmd.body.update.value)
  }

  ghost predicate AllWithin(us: seq<ConfigUpdate>) {
    forall k :: 0 <= k < |us| ==> Within(us[k])
  }

  ghost predicate CommandsWithin(cmds: seq<Command>) {
    forall k :: 0 <= k < |cmds| ==> CommandWithin(cmds[k])
  }

  ghost predicate BoundInv(s: Worker) {
    && s.freq <= MAX_FREQUENCY
    && AllWithin(s.configCh)
    && CommandsWithin(s.commandCh)
    && CommandsWithin(s.held)
    && !s.panicked
  }

  ghost predicate EventWithin(e: Event) {
    && (e.Offer? ==> CommandWithin(e.cmd))
    && (e.PutConfig? ==> Within(e.update))
  }

  lemma ConfigQueues(env: Environment, s: Worker, u: ConfigUpdate)
    ensures var q := HandleConfig(env, s, Some(u)).0.configCh;
            q == s.configCh || q == s.configCh + [u]
  {
    var s1 := PersistFrequency(env, s, u).0;
    var s2 := PersistStatus(env, s1, u).0;
    assert s1.configCh == s.configCh && s2.configCh == s.configCh;
  }

  lemma AnswerWithin(env: Environment, s: Worker, cmd: Command)
    requires AllWithin(s.configCh) && CommandWithin(cmd)
    ensures AllWithin(Answer(env, s, cmd).configCh)
  {
    match cmd.body {
      case Configure(Some(u)) => ConfigQueues(env, s, u);
      case _ => assert Answer(env, s, cmd).configCh == s.configCh;
    }
  }

  lemma {:induction false} AnswerAllWithin(env: Environment, s: Worker, cmds: seq<Command>)
    requires AllWithin(s.configCh) && CommandsWithin(cmds)
    ensures AllWithin(AnswerAll(env, s, cmds).configCh)
  {
    if cmds != [] {
      AnswerAllWithin(env, s, cmds[..|cmds| - 1]);
      AnswerWithin(env, AnswerAll(env, s, cmds[..|cmds| - 1]), cmds[|cmds| - 1]);
    }
  }

  lemma TickerWithin(s: Worker, freq: int)
    requires 0 < freq <= MAX_FREQUENCY && !s.panicked
    ensures !SetTicker(s, freq).panicked
  {
    PeriodExact(freq);
  }

  lemma ConfigWithin(s: Worker)
    requires BoundInv(s)
    ensures BoundInv(DrainConfig(s)) && BoundInv(TakeConfig(s))
  {
    if s.configCh != [] && Sets(s.configCh[0]) {
      TickerWithin(s.(configCh := s.configCh[1..]), s.configCh[0].freq.value);
    }
  }

  lemma TickWithin(env: Environment, s: Worker, t1: Instant, t2: Instant)
    requires BoundInv(s)
    ensures BoundInv(Tick(env, s, t1, t2))
  {
    ConfigWithin(s);
    DrainOutputs(s, t1);
    var d := DrainControl(s, t1);
    DrainConfigFrame(s);
    AnswerAllWithin(env, d.(active := None), d.held);
    ExpiryOutputs(env, d, t2);
    PublishOutputs(env, CheckExpiry(env, d, t2));
  }

  lemma StepWithin(env: Environment, s: Worker, e: Event)
    requires BoundInv(s) && EventWithin(e)
    ensures BoundInv(Step(env, s, e))
  {
    match e
    case TickTurn(t1, t2) => TickWithin(env, s, t1, t2);
    case CommandTurn =>
      if s.commandCh != [] {
        var t := s.(commandCh := s.commandCh[1..]);
        AnswerOutputs(env, t, s.commandCh[0]);
        AnswerWithin(env, t, s.commandCh[0]);
      }
    case ConfigTurn => ConfigWithin(s);
    case _ =>
  }

  /** No ticker ever panics while all frequencies handed to the worker stay
      within MAX_FREQUENCY. */
  lemma {:induction false} RunNeverPanics(env: Environment, row: Row, sensors: seq<Sensor>, es: seq<Event>)
    requires row.freq <= MAX_FREQUENCY
    requires forall k :: 0 <= k < |es| ==> EventWithin(es[k])
    ensures BoundInv(Run(env, Started(row, sensors), es))
  {
    if es != [] {
      RunNeverPanics(env, row, sensors, es[..|es| - 1]);
      StepWithin(env, Run(env, Started(row, sensors), es[..|es| - 1]), es[|es| - 1]);
    } else if row.freq > 0 {
      TickerWithin(Idle(row, sensors), row.freq);
    }
  }
}
