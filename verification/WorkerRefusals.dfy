/** What a refused command leaves behind in the store. */
module WorkerRefusals {
  import opened Domain
  import opened WorkerModel
  import opened WorkerFrequency
  import Generators

  /** The frequency write is made and succeeds. */
  predicate WritesFrequency(env: Environment, s: Worker, u: ConfigUpdate) {
    Sets(u) && !env.storeFails(s.storeCalls)
  }

  /** The status write is made and succeeds; it comes second. */
  predicate WritesStatus(env: Environment, s: Worker, u: ConfigUpdate) {
    && u.status.Some?
    && (u.freq.None? || WritesFrequency(env, s, u))
    && !env.storeFails(s.storeCalls + if u.freq.Some? then 1 else 0)
  }

  /** The command asks for a new value that reaches the store. */
  predicate LeavesTrace(env: Environment, s: Worker, cmd: Command) {
    && cmd.body.Configure? && cmd.body.update.Some?
    && var u := cmd.body.update.value;
       || (WritesFrequency(env, s, u) && u.freq.value != s.row.freq)
       || (WritesStatus(env, s, u) && u.status.value != s.row.status)
  }

  /** A config command is accepted exactly when both of its parts can be written,
      the frequency is positive and configCh has room. */
  lemma AcceptedExactly(env: Environment, s: Worker, u: ConfigUpdate)
    ensures HandleConfig(env, s, Some(u)).1 == Ack
       <==> (u.freq.Some? ==> WritesFrequency(env, s, u)) && (u.status.Some? ==> WritesStatus(env, s, u))
            && |s.configCh| < CAPACITY
  {
  }

  lemma FrequencyWritten(env: Environment, s: Worker, u: ConfigUpdate)
    ensures var (t, kept) := PersistFrequency(env, s, u);
            && kept == (u.freq.Some? ==> WritesFrequency(env, s, u))
            && t == s.(storeCalls := t.storeCalls,
                       row := if WritesFrequency(env, s, u) then s.row.(freq := u.freq.value) else s.row)
            && (kept ==> t.storeCalls == s.storeCalls + if u.freq.Some? then 1 else 0)
  {
  }

  lemma StatusWritten(env: Environment, s: Worker, u: ConfigUpdate)
    ensures var (t, ok) := PersistStatus(env, s, u);
            && ok == (u.status.Some? ==> !env.storeFails(s.storeCalls))
            && t == s.(storeCalls := t.storeCalls,
                       row := if u.status.Some? && ok then s.row.(status := u.status.value) else s.row)
  {
  }

  lemma RefusedConfig(env: Environment, s: Worker, u: ConfigUpdate)
    requires HandleConfig(env, s, Some(u)).1 == Nack
    ensures var t := HandleConfig(env, s, Some(u)).0;
            && t == s.(row := t.row, storeCalls := t.storeCalls, writes := t.writes)
            && t.row.freq == (if WritesFrequency(env, s, u) then u.freq.value else s.row.freq)
            && t.row.status == (if WritesStatus(env, s, u) then u.status.value else s.row.status)
            && t.row.firmware == s.row.firmware
  {
    FrequencyWritten(env, s, u);
    var (s1, kept) := PersistFrequency(env, s, u);
    if kept {
      StatusWritten(env, s1, u);
    }
  }

  /** Refused, a command changes nothing the worker acts on, and its row stays as it
      was if and only if no new value of it had reached the store. */
  lemma RefusedKeepsRow(env: Environment, s: Worker, cmd: Command)
    requires Process(env, s, cmd).1 == Nack
    ensures var t := Process(env, s, cmd).0;
            && t == s.(row := t.row, storeCalls := t.storeCalls, writes := t.writes)
            && (t.row == s.row <==> !LeavesTrace(env, s, cmd))
  {
    match cmd.body {
      case Configure(Some(u)) => RefusedConfig(env, s, u);
      case _ =>
    }
  }

  // ----- two inputs -----

  const ROLL: Roll := Roll(Generators.Draw(0.0, 0.0, 0.0, 0.0), true, 0.0)

  function NewFrequency(): Command {
    Command("c", Configure(Some(ConfigUpdate(Some(2000), Some(Paused)))), 0)
  }

  /** The status write fails, and the new frequency stays. */
  lemma RefusedFrequencyStays()
    ensures var env := Environment(n => n == 1, n => ROLL);
            var s := Started(Row(1000, Online, ""), []);
            var w := Run(env, s, [Offer(NewFrequency()), CommandTurn]);
            w.log == [Replied(NewFrequency(), Nack, None)] && w.row == Row(2000, Online, "")
  {
    var env := Environment(n => n == 1, n => ROLL);
    var s := Started(Row(1000, Online, ""), []);
    var es := [Offer(NewFrequency()), CommandTurn];
    assert es[..1] == [Offer(NewFrequency())] && [Offer(NewFrequency())][..0] == [];
    assert Run(env, s, es[..1]) == Step(env, Run(env, s, []), Offer(NewFrequency()));
    assert Run(env, s, es) == TakeCommand(env, Run(env, s, es[..1]));
  }

  function NewStatus(): Command {
    Command("c", Configure(Some(ConfigUpdate(None, Some(Paused)))), 0)
  }

  function Fill(n: nat): seq<Event> {
    if n == 0 then [] else Fill(n - 1) + [PutConfig(ConfigUpdate(None, None))]
  }

  lemma {:induction false} Filled(env: Environment, s: Worker, n: nat)
    requires s.configCh == [] && n <= CAPACITY
    ensures var t := Run(env, s, Fill(n));
            |t.configCh| == n && t == s.(configCh := t.configCh)
  {
    if n > 0 {
      Filled(env, s, n - 1);
      assert Fill(n)[..|Fill(n)| - 1] == Fill(n - 1);
    }
  }

  lemma RefusedWhenFull(env: Environment, full: Worker)
    requires |full.configCh| == CAPACITY && full.commandCh == [] && full.active == None && !env.storeFails(full.storeCalls)
    ensures var w := Step(env, Step(env, full, Offer(NewStatus())), CommandTurn);
            w.log == full.log + [Replied(NewStatus(), Nack, None)] && w.row == full.row.(status := Paused)
  {
    assert Step(env, full, Offer(NewStatus())).commandCh == [NewStatus()];
  }

  /** The configuration channel is full, and the new status stays. */
  lemma RefusedStatusStays()
    ensures var env := Environment(n => false, n => ROLL);
            var s := Started(Row(1000, Online, ""), []);
            var w := Run(env, s, Fill(CAPACITY) + [Offer(NewStatus()), CommandTurn]);
            w.log == [Replied(NewStatus(), Nack, None)] && w.row == Row(1000, Paused, "")
  {
    var env := Environment(n => false, n => ROLL);
    var s := Started(Row(1000, Online, ""), []);
    var offered := Fill(CAPACITY) + [Offer(NewStatus())];
    var es := Fill(CAPACITY) + [Offer(NewStatus()), CommandTurn];
    Filled(env, s, CAPACITY);
    RefusedWhenFull(env, Run(env, s, Fill(CAPACITY)));
    assert es[..|es| - 1] == offered && offered[..|offered| - 1] == Fill(CAPACITY);
  }
}
