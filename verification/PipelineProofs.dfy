/** The pipeline is one FIFO that loses commands at a single, known place. */
module PipelineProofs {
  import opened Domain
  import opened WorkerModel
  import opened WorkerProofs
  import P = PipelineModel
  import opened PipelineModel

  // ----- the lossy FIFO -----

  datatype Fifo = Fifo(out: seq<Command>, queue: seq<Command>)

  datatype Action = Stutter | Push(cmd: Command) | Pop(n: nat) | Lose(i: nat)

  /** A command can only be lost while at least CAPACITY others are ahead of it. */
  ghost predicate Enabled(f: Fifo, a: Action) {
    match a
    case Stutter => true
    case Push(_) => true
    case Pop(n) => n <= |f.queue|
    case Lose(i) => CAPACITY <= i < |f.queue|
  }

  ghost function Apply(f: Fifo, a: Action): Fifo {
    if !Enabled(f, a) then f else
    match a
    case Stutter => f
    case Push(cmd) => f.(queue := f.queue + [cmd])
    case Pop(n) => Fifo(f.out + f.queue[..n], f.queue[n..])
    case Lose(i) => f.(queue := f.queue[..i] + f.queue[i + 1..])
  }

  // ----- the abstraction -----

  function InHand(p: Pipe): seq<Command> {
    if p.hand.Some? then [p.hand.value] else []
  }

  /** Everything accepted and not yet answered, oldest first. */
  function Waiting(p: Pipe): seq<Command> {
    p.worker.held + p.worker.commandCh + InHand(p) + p.sub
  }

  function Abstract(p: Pipe): Fifo {
    Fifo(Answered(p.worker.log), Waiting(p))
  }

  function ActionOf(p: Pipe, e: P.Event): Action {
    match e
    case Deliver(msg, now) => if Dispose(|p.sub|, msg, now) == Accepted then Push(msg.cmd) else Stutter
    case PumpForward =>
      if p.hand.Some? && |p.worker.commandCh| >= CAPACITY
      then Lose(|p.worker.held| + |p.worker.commandCh|)
      else Stutter
    case AtWorker(CommandTurn) =>
      if p.worker.active.None? && p.worker.commandCh != [] then Pop(1) else Stutter
    case AtWorker(TickTurn(t1, t2)) =>
      if p.worker.ticker.Some? && Clears(p.worker, t1, t2) then Pop(|p.worker.held|) else Stutter
    case _ => Stutter
  }

  ghost predicate Refines(env: Environment, p: Pipe, e: P.Event) {
    && Enabled(Abstract(p), ActionOf(p, e))
    && Abstract(P.Step(env, p, e)) == Apply(Abstract(p), ActionOf(p, e))
  }

  lemma FirstCommandMoves(held: seq<Command>, ch: seq<Command>, hand: seq<Command>, sub: seq<Command>)
    requires ch != []
    ensures (held + [ch[0]]) + ch[1..] + hand + sub == held + ch + hand + sub
    ensures held == [] ==> held + ch[1..] + hand + sub == (held + ch + hand + sub)[1..]
    ensures held == [] ==> (held + ch + hand + sub)[..1] == [ch[0]]
  {
  }

  lemma HeldCommandsLeave(held: seq<Command>, ch: seq<Command>, hand: seq<Command>, sub: seq<Command>)
    ensures [] + ch + hand + sub == (held + ch + hand + sub)[|held|..]
    ensures (held + ch + hand + sub)[..|held|] == held
  {
  }

  lemma CommandMoved(p: Pipe, t: Worker)
    requires p.worker.commandCh != [] && t.commandCh == p.worker.commandCh[1..]
    ensures (t.held == p.worker.held + [p.worker.commandCh[0]] && Answered(t.log) == Answered(p.worker.log)) ==>
      Abstract(p.(worker := t)) == Abstract(p)
    ensures (p.worker.held == t.held == [] && Answered(t.log) == Answered(p.worker.log) + [p.worker.commandCh[0]]) ==>
      Enabled(Abstract(p), Pop(1)) && Abstract(p.(worker := t)) == Apply(Abstract(p), Pop(1))
  {
    FirstCommandMoves(p.worker.held, p.worker.commandCh, InHand(p), p.sub);
    assert InHand(p.(worker := t)) == InHand(p);
  }

  lemma CommandTurnRefines(env: Environment, p: Pipe)
    requires HoldInv(p.worker)
    ensures Refines(env, p, AtWorker(CommandTurn))
  {
    if p.worker.commandCh != [] {
      var t := TakeCommand(env, p.worker);
      CommandState(env, p.worker);
      assert P.Step(env, p, AtWorker(CommandTurn)) == p.(worker := t);
      CommandMoved(p, t);
    }
  }

  lemma HeldFlushed(p: Pipe, t: Worker)
    requires t.held == [] && t.commandCh == p.worker.commandCh
    requires Answered(t.log) == Answered(p.worker.log) + p.worker.held
    ensures Enabled(Abstract(p), Pop(|p.worker.held|))
    ensures Abstract(p.(worker := t)) == Apply(Abstract(p), Pop(|p.worker.held|))
  {
    HeldCommandsLeave(p.worker.held, p.worker.commandCh, InHand(p), p.sub);
    assert InHand(p.(worker := t)) == InHand(p);
  }

  lemma NothingFlushed(p: Pipe, t: Worker)
    requires t.held == p.worker.held && t.commandCh == p.worker.commandCh
    requires Answered(t.log) == Answered(p.worker.log)
    ensures Abstract(p.(worker := t)) == Abstract(p)
  {
    assert InHand(p.(worker := t)) == InHand(p);
  }

  lemma TickRefines(env: Environment, p: Pipe, t1: Instant, t2: Instant)
    ensures Refines(env, p, AtWorker(TickTurn(t1, t2)))
  {
    if p.worker.ticker.Some? {
      var t := Tick(env, p.worker, t1, t2);
      TickAnswers(env, p.worker, t1, t2);
      TickState(env, p.worker, t1, t2);
      assert P.Step(env, p, AtWorker(TickTurn(t1, t2))) == p.(worker := t);
      if Clears(p.worker, t1, t2) {
        HeldFlushed(p, t);
      } else {
        NothingFlushed(p, t);
      }
    }
  }

  lemma QuietRefines(env: Environment, p: Pipe, we: WorkerModel.Event)
    requires !we.CommandTurn? && !we.TickTurn?
    ensures Refines(env, p, AtWorker(we))
  {
    if !we.Offer? {
      QuietEvents(env, p.worker, we);
    }
  }

  lemma ForwardRefines(env: Environment, p: Pipe)
    requires HoldInv(p.worker)
    ensures Refines(env, p, PumpForward)
  {
    if p.hand.Some? {
      var q := Forward(env, p);
      assert InHand(p) == [p.hand.value] && InHand(q) == [];
      HandPassed(p.worker.held, p.worker.commandCh, p.hand.value, p.sub);
    }
  }

  lemma HandPassed(held: seq<Command>, ch: seq<Command>, cmd: Command, sub: seq<Command>)
    ensures held + (ch + [cmd]) + [] + sub == held + ch + [cmd] + sub
    ensures var i := |held| + |ch|;
            var queue := held + ch + [cmd] + sub;
            i < |queue| && held + ch + [] + sub == queue[..i] + queue[i + 1..]
  {
  }

  lemma QueueRefines(env: Environment, p: Pipe, e: P.Event)
    requires e.Deliver? || e.PumpReceive? || e.PumpExit?
    ensures Refines(env, p, e)
  {
  }

  /** Each step of the pipeline is one step of the lossy FIFO, or none. */
  lemma StepRefines(env: Environment, p: Pipe, e: P.Event)
    requires HoldInv(p.worker)
    ensures Refines(env, p, e)
  {
    match e
    case AtWorker(we) =>
      match we {
        case CommandTurn => CommandTurnRefines(env, p);
        case TickTurn(t1, t2) => TickRefines(env, p, t1, t2);
        case _ => QuietRefines(env, p, we);
      }
    case PumpForward => ForwardRefines(env, p);
    case _ => QueueRefines(env, p, e);
  }

  lemma StepHolds(env: Environment, p: Pipe, e: P.Event)
    requires HoldInv(p.worker)
    ensures HoldInv(P.Step(env, p, e).worker)
  {
    match e
    case AtWorker(we) => StepKeepsHolding(env, p.worker, we);
    case PumpForward =>
      if p.hand.Some? {
        StepKeepsHolding(env, p.worker, Offer(p.hand.value));
      }
    case _ =>
  }

  ghost function ApplyAll(f: Fifo, actions: seq<Action>): Fifo {
    if actions == [] then f
    else Apply(ApplyAll(f, actions[..|actions| - 1]), actions[|actions| - 1])
  }

  ghost predicate AllEnabled(f: Fifo, actions: seq<Action>) {
    forall k :: 0 <= k < |actions| ==> Enabled(ApplyAll(f, actions[..k]), actions[k])
  }

  lemma ExtendActions(f: Fifo, actions: seq<Action>, a: Action)
    requires AllEnabled(f, actions) && Enabled(ApplyAll(f, actions), a)
    ensures AllEnabled(f, actions + [a])
    ensures ApplyAll(f, actions + [a]) == Apply(ApplyAll(f, actions), a)
  {
    var more := actions + [a];
    assert more[..|actions|] == actions;
    forall k | 0 <= k < |more| ensures Enabled(ApplyAll(f, more[..k]), more[k]) {
      assert k < |actions| ==> more[..k] == actions[..k];
    }
  }

  function Actions(env: Environment, p: Pipe, es: seq<P.Event>): seq<Action> {
    if es == [] then []
    else Actions(env, p, es[..|es| - 1]) + [ActionOf(P.Run(env, p, es[..|es| - 1]), es[|es| - 1])]
  }

  /** Every interleaving of deliveries, pump and worker steps is a run of the
      lossy FIFO from empty: commands leave in the order they were accepted. */
  lemma {:induction false} RunRefines(env: Environment, row: Row, sensors: seq<Sensor>, es: seq<P.Event>)
    ensures var p := Opened(row, sensors);
            && HoldInv(P.Run(env, p, es).worker)
            && AllEnabled(Fifo([], []), Actions(env, p, es))
            && Abstract(P.Run(env, p, es)) == ApplyAll(Fifo([], []), Actions(env, p, es))
  {
    var p := Opened(row, sensors);
    if es != [] {
      var init, e := es[..|es| - 1], es[|es| - 1];
      RunRefines(env, row, sensors, init);
      StepRefines(env, P.Run(env, p, init), e);
      StepHolds(env, P.Run(env, p, init), e);
      ExtendActions(Fifo([], []), Actions(env, p, init), ActionOf(P.Run(env, p, init), e));
    } else {
      RunKeepsHolding(env, row, sensors, []);
    }
  }

  // ----- exact accounting -----

  /** The accepted commands without those at the lost positions. */
  function Survivors(accepted: seq<Arrival>, lost: set<int>): seq<Command> {
    if accepted == [] then []
    else
      var n := |accepted| - 1;
      Survivors(accepted[..n], lost) + if n in lost then [] else [accepted[n].cmd]
  }

  function Commands(arrivals: seq<Arrival>): (cmds: seq<Command>)
    ensures |cmds| == |arrivals|
    ensures forall k :: 0 <= k < |cmds| ==> cmds[k] == arrivals[k].cmd
  {
    seq(|arrivals|, k requires 0 <= k < |arrivals| => arrivals[k].cmd)
  }

  /** From position k on nothing is lost. */
  lemma {:induction false} SurvivorsFrom(accepted: seq<Arrival>, lost: set<int>, k: nat)
    requires k <= |accepted| && forall i :: i in lost ==> i < k
    ensures Survivors(accepted, lost) == Survivors(accepted[..k], lost) + Commands(accepted[k..])
  {
    var n := |accepted| - 1;
    if k == |accepted| {
      assert accepted[..k] == accepted;
    } else {
      SurvivorsFrom(accepted[..n], lost, k);
      assert accepted[..n][..k] == accepted[..k];
      assert Commands(accepted[k..]) == Commands(accepted[..n][k..]) + [accepted[n].cmd];
    }
  }

  lemma {:induction false} SurvivorsIgnore(accepted: seq<Arrival>, lost: set<int>, k: nat)
    requires k >= |accepted|
    ensures Survivors(accepted, lost + {k}) == Survivors(accepted, lost)
  {
    if accepted != [] {
      SurvivorsIgnore(accepted[..|accepted| - 1], lost, k);
    }
  }

  lemma SurvivorsAt(accepted: seq<Arrival>, lost: set<int>, k: nat)
    requires k < |accepted|
    ensures Survivors(accepted[..k + 1], lost)
         == Survivors(accepted[..k], lost) + (if k in lost then [] else [accepted[k].cmd])
  {
    assert accepted[..k + 1][..k] == accepted[..k];
  }

  /** The accounting: `tail` is what the last accepted commands still in front of
      the worker are, `received` what the worker has got of the others. */
  ghost predicate Accounted(accepted: seq<Arrival>, lost: set<int>, received: seq<Command>, tail: seq<Command>) {
    && |tail| <= |accepted|
    && Commands(accepted[|accepted| - |tail|..]) == tail
    && (forall i :: i in lost ==> 0 <= i < |accepted| - |tail|)
    && Survivors(accepted[..|accepted| - |tail|], lost) == received
  }

  lemma AccountedAll(accepted: seq<Arrival>, lost: set<int>, received: seq<Command>, tail: seq<Command>)
    requires Accounted(accepted, lost, received, tail)
    ensures Survivors(accepted, lost) == received + tail
  {
    SurvivorsFrom(accepted, lost, |accepted| - |tail|);
  }

  lemma AccountAccept(accepted: seq<Arrival>, lost: set<int>, received: seq<Command>, tail: seq<Command>, arrival: Arrival)
    requires Accounted(accepted, lost, received, tail)
    ensures Accounted(accepted + [arrival], lost, received, tail + [arrival.cmd])
  {
    var k, more := |accepted| - |tail|, accepted + [arrival];
    assert more[..k] == accepted[..k];
    assert Commands(more[k..]) == Commands(accepted[k..]) + [arrival.cmd];
  }

  /** The command at the head of the tail reaches the worker, or is lost. */
  lemma AccountForward(accepted: seq<Arrival>, lost: set<int>, received: seq<Command>, cmd: Command, sub: seq<Command>)
    requires Accounted(accepted, lost, received, [cmd] + sub)
    ensures Accounted(accepted, lost, received + [cmd], sub)
    ensures Accounted(accepted, lost + {|accepted| - |sub| - 1}, received, sub)
    ensures accepted[|accepted| - |sub| - 1].cmd == cmd
  {
    var k := |accepted| - |sub| - 1;
    assert accepted[k].cmd == Commands(accepted[k..])[0];
    assert Commands(accepted[k + 1..]) == Commands(accepted[k..])[1..] == sub;
    SurvivorsAt(accepted, lost, k);
    SurvivorsAt(accepted, lost + {k}, k);
    SurvivorsIgnore(accepted[..k], lost, k);
    assert received + [] == received;
  }

  ghost predicate FreshArrivals(accepted: seq<Arrival>) {
    forall k :: 0 <= k < |accepted| ==> accepted[k].at - accepted[k].cmd.issuedAt <= TTL
  }

  ghost predicate PipeInv(p: Pipe) {
    && HoldInv(p.worker)
    && |p.sub| <= SUBSCRIBER_CAPACITY
    && Accounted(p.accepted, p.lost, Received(p.worker), InHand(p) + p.sub)
    && FreshArrivals(p.accepted)
  }

  lemma DeliverKeeps(p: Pipe, msg: Message, now: Instant)
    requires PipeInv(p)
    ensures PipeInv(Handle(p, msg, now))
  {
    if Dispose(|p.sub|, msg, now) == Accepted {
      var q := Handle(p, msg, now);
      AccountAccept(p.accepted, p.lost, Received(p.worker), InHand(p) + p.sub, Arrival(msg.cmd, now));
      assert InHand(q) + q.sub == InHand(p) + p.sub + [msg.cmd];
    }
  }

  lemma ReceiveKeeps(p: Pipe)
    requires PipeInv(p)
    ensures PipeInv(Receive(p))
  {
    if p.hand.None? && p.sub != [] {
      assert [p.sub[0]] + p.sub[1..] == InHand(p) + p.sub;
    }
  }

  lemma ForwardKeeps(env: Environment, p: Pipe)
    requires PipeInv(p)
    ensures PipeInv(Forward(env, p))
  {
    if p.hand.Some? {
      AccountForward(p.accepted, p.lost, Received(p.worker), p.hand.value, p.sub);
      StepKeepsHolding(env, p.worker, Offer(p.hand.value));
      StepConserves(env, p.worker, Offer(p.hand.value));
      assert InHand(Forward(env, p)) + p.sub == p.sub;
    }
  }

  lemma WorkerKeepsPipe(env: Environment, p: Pipe, we: WorkerModel.Event)
    requires PipeInv(p) && !we.Offer?
    ensures PipeInv(p.(worker := WorkerModel.Step(env, p.worker, we)))
  {
    StepKeepsHolding(env, p.worker, we);
    StepConserves(env, p.worker, we);
  }

  lemma StepKeepsPipe(env: Environment, p: Pipe, e: P.Event)
    requires PipeInv(p)
    ensures PipeInv(P.Step(env, p, e))
  {
    match e
    case Deliver(msg, now) => DeliverKeeps(p, msg, now);
    case PumpReceive => ReceiveKeeps(p);
    case PumpForward => ForwardKeeps(env, p);
    case PumpExit =>
    case AtWorker(we) =>
      if !we.Offer? {
        WorkerKeepsPipe(env, p, we);
      }
  }

  lemma {:induction false} RunKeepsPipe(env: Environment, row: Row, sensors: seq<Sensor>, es: seq<P.Event>)
    ensures PipeInv(P.Run(env, Opened(row, sensors), es))
  {
    if es != [] {
      RunKeepsPipe(env, row, sensors, es[..|es| - 1]);
      StepKeepsPipe(env, P.Run(env, Opened(row, sensors), es[..|es| - 1]), es[|es| - 1]);
    } else {
      RunKeepsHolding(env, row, sensors, []);
    }
  }

  /** In every interleaving the accepted commands, without those the pump dropped,
      are in order: answered, held back, in commandCh, in the pump's hand and in
      the subscriber's channel; and only commands within the TTL get in. */
  lemma RunAccounts(env: Environment, row: Row, sensors: seq<Sensor>, es: seq<P.Event>)
    ensures var p := P.Run(env, Opened(row, sensors), es);
            && PipeInv(p)
            && Survivors(p.accepted, p.lost)
            == Answered(p.worker.log) + p.worker.held + p.worker.commandCh + InHand(p) + p.sub
  {
    RunKeepsPipe(env, row, sensors, es);
    var p := P.Run(env, Opened(row, sensors), es);
    AccountedAll(p.accepted, p.lost, Received(p.worker), InHand(p) + p.sub);
  }

  /** The pump drops the command in its hand, and nothing else is ever lost,
      exactly when it forwards to a commandCh that holds ten. */
  lemma LossOnlyWhenFull(env: Environment, p: Pipe, e: P.Event)
    requires PipeInv(p)
    ensures var q := P.Step(env, p, e);
            var drops := e.PumpForward? && p.hand.Some? && |p.worker.commandCh| == CAPACITY;
            && p.lost <= q.lost
            && (q.lost != p.lost <==> drops)
            && (drops ==> exists k :: 0 <= k < |p.accepted| && k !in p.lost
                            && q.lost == p.lost + {k} && p.accepted[k].cmd == p.hand.value)
  {
    if e.PumpForward? && p.hand.Some? {
      AccountForward(p.accepted, p.lost, Received(p.worker), p.hand.value, p.sub);
    }
  }

  predicate Drops(p: Pipe, e: P.Event) {
    e.PumpForward? && p.hand.Some? && |p.worker.commandCh| == CAPACITY
  }

  /** How many steps of the run forwarded a command to a commandCh that held ten. */
  function DropCount(env: Environment, p: Pipe, es: seq<P.Event>): nat {
    if es == [] then 0
    else
      var init := es[..|es| - 1];
      DropCount(env, p, init) + if Drops(P.Run(env, p, init), es[|es| - 1]) then 1 else 0
  }

  /** In every run as many commands are lost as there were such steps. */
  lemma {:induction false} LossesCounted(env: Environment, row: Row, sensors: seq<Sensor>, es: seq<P.Event>)
    ensures |P.Run(env, Opened(row, sensors), es).lost| == DropCount(env, Opened(row, sensors), es)
  {
    if es != [] {
      var init, e := es[..|es| - 1], es[|es| - 1];
      var p := P.Run(env, Opened(row, sensors), init);
      LossesCounted(env, row, sensors, init);
      RunKeepsPipe(env, row, sensors, init);
      LossOnlyWhenFull(env, p, e);
      if Drops(p, e) {
        var k :| 0 <= k < |p.accepted| && k !in p.lost && P.Step(env, p, e).lost == p.lost + {k};
        assert |p.lost + {k}| == |p.lost| + 1;
      }
    }
  }

  function Deliveries(es: seq<P.Event>): nat {
    if es == [] then 0 else Deliveries(es[..|es| - 1]) + if es[|es| - 1].Deliver? then 1 else 0
  }

  lemma DeliveryDisposed(env: Environment, p: Pipe, e: P.Event)
    ensures var q := P.Step(env, p, e);
            |q.accepted| + |q.expired| + |q.refused| + q.terminated
            == |p.accepted| + |p.expired| + |p.refused| + p.terminated + if e.Deliver? then 1 else 0
  {
  }

  /** In every run each delivery was accepted, expired, refused or terminated, and only
      one of these. */
  lemma {:induction false} EveryDeliveryDisposed(env: Environment, row: Row, sensors: seq<Sensor>, es: seq<P.Event>)
    ensures var p := P.Run(env, Opened(row, sensors), es);
            |p.accepted| + |p.expired| + |p.refused| + p.terminated == Deliveries(es)
  {
    if es != [] {
      var init := es[..|es| - 1];
      EveryDeliveryDisposed(env, row, sensors, init);
      DeliveryDisposed(env, P.Run(env, Opened(row, sensors), init), es[|es| - 1]);
    }
  }

  /** What one delivery does to the pipeline, told by the message, its age and the room
      in the subscriber's channel. */
  lemma DeliveryExact(env: Environment, p: Pipe, msg: Message, now: Instant)
    ensures var q := P.Step(env, p, P.Event.Deliver(msg, now));
            match msg
            case Garbled => q == p.(terminated := p.terminated + 1)
            case Carrying(cmd) =>
              if now - cmd.issuedAt > 60 * SECOND then q == p.(expired := p.expired + [cmd])
              else if |p.sub| < 8 then q == p.(sub := p.sub + [cmd], accepted := p.accepted + [Arrival(cmd, now)])
              else q == p.(refused := p.refused + [cmd])
  {
  }

  /** With its hand free and room in commandCh, two steps of the pump move the oldest
      command of the subscriber's channel to the end of commandCh. */
  lemma PumpRound(env: Environment, p: Pipe)
    requires p.isPumping && p.hand == None && p.sub != [] && |p.worker.commandCh| < 10
    ensures P.Run(env, p, [PumpReceive, PumpForward])
         == p.(sub := p.sub[1..], worker := p.worker.(commandCh := p.worker.commandCh + [p.sub[0]]))
  {
    var received := P.Step(env, p, PumpReceive);
    assert [PumpReceive, PumpForward][..1] == [PumpReceive] && [PumpReceive][..0] == [];
    assert P.Run(env, p, [PumpReceive]) == P.Step(env, P.Run(env, p, []), PumpReceive);
    assert received.hand == Some(p.sub[0]);
  }

  /** Saturating subtraction does not move the TTL boundary. */
  lemma TtlExact(now: Instant, cmd: Command)
    ensures Elapsed(now, cmd.issuedAt) > TTL <==> now - cmd.issuedAt > TTL
  {
  }
}
