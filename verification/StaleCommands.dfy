/** The age of a command when it runs: the subscriber checks it on arrival only, so an
    anomaly can hold a command until it is stale. */
module StaleCommands {
  import opened Domain
  import opened WorkerModel
  import opened WorkerProofs
  import opened WorkerAnomalies
  import P = PipelineModel
  import Generators

  /** How many answers the first i steps of the run give. */
  ghost function Count(env: Environment, s: Worker, es: seq<Event>, i: nat): nat
    requires i <= |es|
  {
    |Answered(Run(env, s, es[..i]).log)|
  }

  /** Step i of the run gives the k-th answer of the log. */
  ghost predicate Answers(env: Environment, s: Worker, es: seq<Event>, i: nat, k: nat) {
    i < |es| && Count(env, s, es, i) <= k < Count(env, s, es, i + 1)
  }

  /** Step i is the first tick whose expiry check reads the deadline or later. */
  ghost predicate FirstLate(es: seq<Event>, i: nat, deadline: Instant) {
    i < |es| && es[i].TickTurn? && es[i].checkAt >= deadline && !TickedAt(es[..i], deadline)
  }

  /** An anomaly is in force, with a deadline, and none waits to replace it. */
  ghost predicate Holding(s: Worker, a: Active) {
    s.ticker.Some? && s.anomalyCh == [] && s.active == Some(a) && a.expiresAt != 0
  }

  lemma StepEnd(es: seq<Event>, i: nat)
    requires i < |es|
    ensures es[..i + 1] == es[..i] + [es[i]] && es[..i + 1][..|es[..i + 1]| - 1] == es[..i]
  {
  }

  lemma RunStep(env: Environment, s: Worker, es: seq<Event>, i: nat)
    requires i < |es|
    ensures Run(env, s, es[..i + 1]) == Step(env, Run(env, s, es[..i]), es[i])
  {
    StepEnd(es, i);
  }

  // ----- while the anomaly is in force -----

  lemma HoldingStep(env: Environment, s: Worker, a: Active, e: Event)
    requires Holding(s, a) && !e.PutAnomaly? && !(e.TickTurn? && e.checkAt >= a.expiresAt)
    ensures var t := Step(env, s, e);
            Holding(t, a) && Answered(t.log) == Answered(s.log) && s.held <= t.held
  {
    StepAnomaly(env, s, e);
    match e {
      case TickTurn(t1, t2) =>
        TickAnswers(env, s, t1, t2);
        TickState(env, s, t1, t2);
      case CommandTurn =>
        if s.commandCh != [] {
          CommandState(env, s);
        }
      case Offer(_) =>
      case _ => QuietEvents(env, s, e);
    }
  }

  lemma {:induction false} StillHeld(env: Environment, s: Worker, a: Active, es: seq<Event>)
    requires Holding(s, a) && NoInjection(es) && !TickedAt(es, a.expiresAt)
    ensures var w := Run(env, s, es);
            Holding(w, a) && Answered(w.log) == Answered(s.log) && s.held <= w.held
  {
    if es != [] {
      var init, e := es[..|es| - 1], es[|es| - 1];
      assert es == init + [e];
      TickedAtSplit(init, e, a.expiresAt);
      StillHeld(env, s, a, init);
      HoldingStep(env, Run(env, s, init), a, e);
    }
  }

  // ----- the answering tick -----

  lemma StepGrows(env: Environment, s: Worker, e: Event)
    ensures |Answered(s.log)| <= |Answered(Step(env, s, e).log)|
  {
    match e {
      case TickTurn(t1, t2) => TickAnswers(env, s, t1, t2);
      case CommandTurn =>
        if s.commandCh != [] {
          CommandState(env, s);
        }
      case Offer(_) =>
      case _ => QuietEvents(env, s, e);
    }
  }

  lemma CountStep(env: Environment, s: Worker, es: seq<Event>, i: nat)
    requires i < |es|
    ensures Count(env, s, es, i) <= Count(env, s, es, i + 1)
  {
    RunStep(env, s, es, i);
    StepGrows(env, Run(env, s, es[..i]), es[i]);
  }

  lemma {:induction false} RunGrows(env: Environment, s: Worker, es: seq<Event>, i: nat, j: nat)
    requires i <= j <= |es|
    ensures Count(env, s, es, i) <= Count(env, s, es, j)
  {
    if i < j {
      RunGrows(env, s, es, i, j - 1);
      CountStep(env, s, es, j - 1);
    }
  }

  /** The first late tick answers everything held until then, in order. */
  lemma FirstLateAnswers(env: Environment, s: Worker, a: Active, es: seq<Event>, i: nat)
    requires Holding(s, a) && NoInjection(es) && FirstLate(es, i, a.expiresAt)
    ensures var held := Run(env, s, es[..i]).held;
            && s.held <= held
            && Answered(Run(env, s, es[..i]).log) == Answered(s.log)
            && Answered(Run(env, s, es[..i + 1]).log) == Answered(s.log) + held
  {
    StillHeld(env, s, a, es[..i]);
    RunStep(env, s, es, i);
    TickAnswers(env, Run(env, s, es[..i]), es[i].drainAt, es[i].checkAt);
  }

  lemma {:induction false} SomeFirstLate(es: seq<Event>, deadline: Instant)
    requires TickedAt(es, deadline)
    ensures exists i: nat :: FirstLate(es, i, deadline)
  {
    var init, e := es[..|es| - 1], es[|es| - 1];
    assert es == init + [e];
    TickedAtSplit(init, e, deadline);
    if TickedAt(init, deadline) {
      SomeFirstLate(init, deadline);
      var i: nat :| FirstLate(init, i, deadline);
      assert es[..i] == init[..i];
      assert FirstLate(es, i, deadline);
    } else {
      assert FirstLate(es, |init|, deadline);
    }
  }

  lemma TickedBefore(es: seq<Event>, i: nat, deadline: Instant)
    requires i < |es|
    ensures TickedAt(es[..i + 1], deadline) <==> TickedAt(es[..i], deadline) || FirstLate(es, i, deadline)
  {
    StepEnd(es, i);
    TickedAtSplit(es[..i], es[i], deadline);
  }

  /** Under an anomaly that is not replaced, a held command is answered by the first
      tick whose expiry check reads the deadline or later, and by no other step. */
  lemma AnsweredByFirstLate(env: Environment, s: Worker, a: Active, es: seq<Event>, j: nat, i: nat)
    requires Holding(s, a) && NoInjection(es) && j < |s.held|
    ensures Answers(env, s, es, i, |Answered(s.log)| + j) <==> FirstLate(es, i, a.expiresAt)
    ensures FirstLate(es, i, a.expiresAt) ==>
      |Answered(Run(env, s, es[..i + 1]).log)| > |Answered(s.log)| + j
      && Answered(Run(env, s, es[..i + 1]).log)[|Answered(s.log)| + j] == s.held[j]
  {
    if i < |es| {
      TickedBefore(es, i, a.expiresAt);
      if FirstLate(es, i, a.expiresAt) {
        FirstLateAnswers(env, s, a, es, i);
      } else if TickedAt(es[..i], a.expiresAt) {
        SomeFirstLate(es[..i], a.expiresAt);
        var f: nat :| FirstLate(es[..i], f, a.expiresAt);
        assert es[..i][..f] == es[..f] && es[..i][f] == es[f];
        FirstLateAnswers(env, s, a, es, f);
        RunGrows(env, s, es, f + 1, i);
      } else {
        StillHeld(env, s, a, es[..i + 1]);
      }
    }
  }

  // ----- how old it is then -----

  ghost predicate AnswersStale(env: Environment, s: Worker, es: seq<Event>, i: nat, k: nat, cmd: Command) {
    Answers(env, s, es, i, k) && es[i].TickTurn? && es[i].checkAt - cmd.issuedAt > P.TTL
  }

  ghost predicate RunsStale(env: Environment, s: Worker, es: seq<Event>, k: nat, cmd: Command) {
    exists i: nat :: AnswersStale(env, s, es, i, k, cmd)
  }

  ghost predicate LateBy(es: seq<Event>, i: nat, deadline: Instant, issuedAt: Instant) {
    FirstLate(es, i, deadline) && es[i].checkAt - issuedAt > P.TTL
  }

  /** It runs older than the TTL exactly when the first tick at or after the deadline
      comes more than the TTL after it was issued. */
  lemma StaleExactly(env: Environment, s: Worker, a: Active, es: seq<Event>, j: nat)
    requires Holding(s, a) && NoInjection(es) && j < |s.held|
    ensures RunsStale(env, s, es, |Answered(s.log)| + j, s.held[j])
       <==> (exists i: nat :: LateBy(es, i, a.expiresAt, s.held[j].issuedAt))
  {
    var k := |Answered(s.log)| + j;
    forall i: nat ensures AnswersStale(env, s, es, i, k, s.held[j]) <==> LateBy(es, i, a.expiresAt, s.held[j].issuedAt) {
      AnsweredByFirstLate(env, s, a, es, j, i);
    }
  }

  /** Whatever happens next, short of another anomaly, the command will be stale when
      it runs. */
  ghost predicate NeverFresh(env: Environment, s: Worker, k: nat, cmd: Command) {
    forall es: seq<Event>, i: nat :: NoInjection(es) && Answers(env, s, es, i, k) ==>
      AnswersStale(env, s, es, i, k, cmd)
  }

  lemma AnsweredInTime(env: Environment, s: Worker, a: Active, j: nat)
    requires Holding(s, a) && j < |s.held| && a.expiresAt - s.held[j].issuedAt <= P.TTL
    ensures var once := [TickTurn(a.expiresAt, a.expiresAt)];
            var k := |Answered(s.log)| + j;
            NoInjection(once) && Answers(env, s, once, 0, k) && !AnswersStale(env, s, once, 0, k, s.held[j])
  {
    var once := [TickTurn(a.expiresAt, a.expiresAt)];
    assert FirstLate(once, 0, a.expiresAt);
    AnsweredByFirstLate(env, s, a, once, j, 0);
  }

  lemma AnsweredTooLate(env: Environment, s: Worker, a: Active, j: nat)
    requires Holding(s, a) && j < |s.held| && a.expiresAt - s.held[j].issuedAt > P.TTL
    ensures NeverFresh(env, s, |Answered(s.log)| + j, s.held[j])
  {
    var k, cmd := |Answered(s.log)| + j, s.held[j];
    forall es: seq<Event>, i: nat | NoInjection(es) && Answers(env, s, es, i, k)
      ensures AnswersStale(env, s, es, i, k, cmd)
    {
      AnsweredByFirstLate(env, s, a, es, j, i);
      assert FirstLate(es, i, a.expiresAt);
    }
  }

  /** What can be told while the command is held: it will be stale if and only if the
      anomaly's deadline is more than the TTL after it was issued. */
  lemma StaleForSure(env: Environment, s: Worker, a: Active, j: nat)
    requires Holding(s, a) && j < |s.held|
    ensures NeverFresh(env, s, |Answered(s.log)| + j, s.held[j]) <==> a.expiresAt - s.held[j].issuedAt > P.TTL
  {
    if a.expiresAt - s.held[j].issuedAt > P.TTL {
      AnsweredTooLate(env, s, a, j);
    } else {
      AnsweredInTime(env, s, a, j);
    }
  }

  // ----- such a run, from the delivery to the reply -----

  const START: Instant := 1000 * SECOND

  const ROLL: Roll := Roll(Generators.Draw(0.0, 0.0, 0.0, 0.0), true, 0.0)

  function Late(): Command {
    Command("c", UnknownType, START)
  }

  /** A disconnect of five minutes begins, the command arrives one second old, and a
      tick five minutes later answers it. */
  function Delivery(): seq<P.Event> {
    [P.AtWorker(PutAnomaly(AnomalyCommand(Disconnect, None, Some(300)))),
     P.AtWorker(TickTurn(START, START)),
     P.Deliver(P.Carrying(Late()), START + SECOND),
     P.PumpReceive,
     P.PumpForward,
     P.AtWorker(CommandTurn)]
  }

  lemma RunOn(env: Environment, p: P.Pipe, es: seq<P.Event>, e: P.Event)
    ensures P.Run(env, p, es + [e]) == P.Step(env, P.Run(env, p, es), e)
  {
    assert (es + [e])[..|es|] == es;
  }

  function Calm(): Environment {
    Environment(n => false, n => ROLL)
  }

  function Before(): P.Pipe {
    P.Opened(Row(1000, Online, ""), [])
  }

  const OUTAGE: Active := Active(Disconnect, START + 300 * SECOND, 0.0)

  ghost predicate Idling(p: P.Pipe) {
    && p.sub == [] && p.hand == None && p.isPumping && p.accepted == []
    && Holding(p.worker, OUTAGE) && p.worker.held == [] && p.worker.commandCh == []
    && Answered(p.worker.log) == []
  }

  lemma Injected()
    ensures var p1 := P.Run(Calm(), Before(), Delivery()[..1]);
            && p1 == Before().(worker := p1.worker)
            && p1.worker == Before().worker.(anomalyCh := [AnomalyCommand(Disconnect, None, Some(300))])
  {
    RunOn(Calm(), Before(), [], Delivery()[0]);
    assert Delivery()[..1] == [] + [Delivery()[0]];
  }

  lemma PickedUpAt(s: Worker)
    requires s.ticker.Some? && s.anomalyCh == [AnomalyCommand(Disconnect, None, Some(300))] && s.held == [] && s.log == []
    ensures var t := Step(Calm(), s, TickTurn(START, START));
            && Holding(t, OUTAGE) && t.held == [] && t.commandCh == s.commandCh && Answered(t.log) == []
  {
    assert PickedUp(s, START) == Some(OUTAGE);
    TickState(Calm(), s, START, START);
    TickAnswers(Calm(), s, START, START);
  }

  /** The disconnect is picked up. */
  lemma OutageBegins()
    ensures Idling(P.Run(Calm(), Before(), Delivery()[..2]))
  {
    var es, p1 := Delivery(), P.Run(Calm(), Before(), Delivery()[..1]);
    Injected();
    PickedUpAt(p1.worker);
    assert es[..2] == es[..1] + [es[1]];
    RunOn(Calm(), Before(), es[..1], es[1]);
  }

  /** The command passes the subscriber and the pump; then the worker holds it. */
  lemma CommandForwarded(p: P.Pipe)
    requires Idling(p)
    ensures var p5 := P.Step(Calm(), P.Step(Calm(), P.Step(Calm(), p, Delivery()[2]), Delivery()[3]), Delivery()[4]);
            && p5.accepted == [P.Arrival(Late(), START + SECOND)]
            && p5.worker == p.worker.(commandCh := [Late()])
  {
    var p3 := P.Step(Calm(), p, Delivery()[2]);
    var p4 := P.Step(Calm(), p3, Delivery()[3]);
    assert p3.sub == [Late()] && p4.hand == Some(Late());
  }

  lemma CommandHeld(p: P.Pipe)
    requires Idling(p)
    ensures var p3 := P.Step(Calm(), p, Delivery()[2]);
            var p4 := P.Step(Calm(), p3, Delivery()[3]);
            var p5 := P.Step(Calm(), p4, Delivery()[4]);
            var p6 := P.Step(Calm(), p5, Delivery()[5]);
            && p6.accepted == [P.Arrival(Late(), START + SECOND)]
            && Holding(p6.worker, OUTAGE) && p6.worker.held == [Late()] && Answered(p6.worker.log) == []
  {
    CommandForwarded(p);
    var p5 := P.Step(Calm(), P.Step(Calm(), P.Step(Calm(), p, Delivery()[2]), Delivery()[3]), Delivery()[4]);
    CommandState(Calm(), p5.worker);
  }

  /** Held, with the disconnect in force. */
  lemma DeliveredHeld()
    ensures var p := P.Run(Calm(), Before(), Delivery());
            && p.accepted == [P.Arrival(Late(), START + SECOND)]
            && Holding(p.worker, OUTAGE) && p.worker.held == [Late()] && Answered(p.worker.log) == []
  {
    var es, p0 := Delivery(), Before();
    OutageBegins();
    CommandHeld(P.Run(Calm(), p0, es[..2]));
    assert es[..3] == es[..2] + [es[2]] && es[..4] == es[..3] + [es[3]] && es[..5] == es[..4] + [es[4]];
    assert es == es[..5] + [es[5]];
    RunOn(Calm(), p0, es[..2], es[2]);
    RunOn(Calm(), p0, es[..3], es[3]);
    RunOn(Calm(), p0, es[..4], es[4]);
    RunOn(Calm(), p0, es[..5], es[5]);
  }

  /** Accepted within the TTL, answered long after it. */
  lemma StaleCommandRuns()
    ensures var tick := TickTurn(START + 300 * SECOND, START + 300 * SECOND);
            var p := P.Run(Calm(), Before(), Delivery() + [P.AtWorker(tick)]);
            && p.accepted == [P.Arrival(Late(), START + SECOND)] && SECOND <= P.TTL
            && Answered(P.Run(Calm(), Before(), Delivery()).worker.log) == []
            && Answered(p.worker.log) == [Late()]
            && tick.checkAt - Late().issuedAt > P.TTL
  {
    var at := START + 300 * SECOND;
    DeliveredHeld();
    RunOn(Calm(), Before(), Delivery(), P.AtWorker(TickTurn(at, at)));
    TickAnswers(Calm(), P.Run(Calm(), Before(), Delivery()).worker, at, at);
  }
}
