/** The worker and its message buffer together: what can still be published while a
    disconnect is in force. */
module Telemetry {
  import opened Domain
  import opened WorkerModel
  import opened WorkerProofs
  import B = BufferModel
  import opened BufferProofs

  /** The envelopes that the worker has handed to its buffer, in order. */
  function Handed(log: seq<Output>): seq<Output> {
    if log == [] then []
    else
      var n := |log| - 1;
      if log[n].Buffered? then Handed(log[..n]) + [log[n]] else Handed(log[..n])
  }

  /** The k-th envelope travels as the payload [k]. */
  datatype Node = Node(worker: Worker, buffer: B.Buffer)

  datatype Action = AtWorker(e: Event) | BeginSend | AtBuffer(b: B.Event)

  predicate TakesTurn(e: Event) {
    e.CommandTurn? || e.ConfigTurn? || e.TickTurn?
  }

  /** Send has returned for everything handed over: the loop may go on. */
  predicate CaughtUp(n: Node) {
    n.buffer.stage.Idle? && |n.buffer.begun| == |Handed(n.worker.log)|
  }

  function Act(env: Environment, n: Node, a: Action): Node {
    match a
    case AtWorker(e) => if TakesTurn(e) && !CaughtUp(n) then n else n.(worker := Step(env, n.worker, e))
    case BeginSend =>
      if n.buffer.stage.Idle? && |n.buffer.begun| < |Handed(n.worker.log)|
      then n.(buffer := B.Step(n.buffer, B.SendBegins([|n.buffer.begun|]))) else n
    case AtBuffer(b) => if b.SendBegins? then n else n.(buffer := B.Step(n.buffer, b))
  }

  function Acts(env: Environment, n: Node, actions: seq<Action>): Node {
    if actions == [] then n else Act(env, Acts(env, n, actions[..|actions| - 1]), actions[|actions| - 1])
  }

  // ----- what is handed over -----

  lemma {:induction false} NothingHanded(log: seq<Output>, more: seq<Output>)
    requires log <= more && forall k :: |log| <= k < |more| ==> !more[k].Buffered?
    ensures Handed(more) == Handed(log)
  {
    if more == log {
    } else {
      var shorter := more[..|more| - 1];
      assert log == more[..|log|] == shorter[..|log|];
      NothingHanded(log, shorter);
    }
  }

  lemma {:induction false} HandedGrows(log: seq<Output>, more: seq<Output>)
    requires log <= more
    ensures Handed(log) <= Handed(more)
  {
    if more != log {
      var shorter := more[..|more| - 1];
      assert log == more[..|log|] == shorter[..|log|];
      HandedGrows(log, shorter);
    }
  }

  lemma {:induction false} HandedAllowed(log: seq<Output>)
    requires OutputsAllowed(log)
    ensures forall k :: 0 <= k < |Handed(log)| ==> Handed(log)[k].Buffered? && OutputAllowed(Handed(log)[k])
  {
    if log != [] {
      HandedAllowed(log[..|log| - 1]);
    }
  }

  predicate Disconnected(s: Worker) {
    s.active.Some? && s.active.value.kind == Disconnect
  }

  lemma StepLog(env: Environment, s: Worker, e: Event)
    ensures s.log <= Step(env, s, e).log
    ensures Disconnected(Step(env, s, e)) ==> Handed(Step(env, s, e).log) == Handed(s.log)
  {
    match e {
      case TickTurn(t1, t2) =>
        if s.ticker.Some? {
          TickLog(env, s, t1, t2);
        }
      case CommandTurn =>
        if s.commandCh != [] {
          AnswerOutputs(env, s.(commandCh := s.commandCh[1..]), s.commandCh[0]);
        }
      case Offer(_) =>
      case _ => QuietEvents(env, s, e);
    }
    if e.CommandTurn? {
      NothingHanded(s.log, Step(env, s, e).log);
    }
  }

  lemma TickLog(env: Environment, s: Worker, t1: Instant, t2: Instant)
    ensures var t := Tick(env, s, t1, t2);
            s.log <= t.log && (Disconnected(t) ==> Handed(t.log) == Handed(s.log))
  {
    var d := DrainControl(s, t1);
    var c := CheckExpiry(env, d, t2);
    var t := Publish(env, c);
    DrainOutputs(s, t1);
    ExpiryOutputs(env, d, t2);
    PublishOutputs(env, c);
    if Disconnected(t) {
      NothingHanded(s.log, t.log);
    }
  }

  // ----- envelopes in the buffer -----

  ghost predicate Numbered(payloads: seq<B.Payload>) {
    forall k :: 0 <= k < |payloads| ==> payloads[k] == [k]
  }

  ghost predicate NodeInv(n: Node) {
    && BufferInv(n.buffer) && n.buffer.capacity > 0
    && Numbered(n.buffer.begun) && |n.buffer.begun| <= |Handed(n.worker.log)|
    && HoldInv(n.worker)
  }

  lemma WorkerKeepsNode(env: Environment, n: Node, e: Event)
    requires NodeInv(n)
    ensures NodeInv(n.(worker := Step(env, n.worker, e)))
  {
    StepLog(env, n.worker, e);
    HandedGrows(n.worker.log, Step(env, n.worker, e).log);
    StepKeepsHolding(env, n.worker, e);
  }

  lemma BegunKept(b: B.Buffer, e: B.Event)
    ensures !e.SendBegins? ==> B.Step(b, e).begun == b.begun
    ensures e.SendBegins? && b.stage.Idle? ==> B.Step(b, e).begun == b.begun + [e.payload]
  {
  }

  lemma BufferKeepsNode(n: Node, e: B.Event)
    requires NodeInv(n)
    requires e.SendBegins? ==>
      n.buffer.stage.Idle? && |n.buffer.begun| < |Handed(n.worker.log)| && e.payload == [|n.buffer.begun|]
    ensures NodeInv(n.(buffer := B.Step(n.buffer, e)))
  {
    StepKeeps(n.buffer, e);
    BegunKept(n.buffer, e);
  }

  lemma ActKeeps(env: Environment, n: Node, a: Action)
    requires NodeInv(n)
    ensures NodeInv(Act(env, n, a))
  {
    match a {
      case AtWorker(e) => WorkerKeepsNode(env, n, e);
      case BeginSend =>
        if n.buffer.stage.Idle? && |n.buffer.begun| < |Handed(n.worker.log)| {
          BufferKeepsNode(n, B.SendBegins([|n.buffer.begun|]));
        }
      case AtBuffer(b) =>
        if !b.SendBegins? {
          BufferKeepsNode(n, b);
        }
    }
  }

  lemma {:induction false} ActsKeep(env: Environment, n: Node, actions: seq<Action>)
    requires NodeInv(n)
    ensures NodeInv(Acts(env, n, actions))
  {
    if actions != [] {
      ActsKeep(env, n, actions[..|actions| - 1]);
      ActKeeps(env, Acts(env, n, actions[..|actions| - 1]), actions[|actions| - 1]);
    }
  }

  /** The disconnect stays in force throughout. */
  ghost predicate StaysDisconnected(env: Environment, n: Node, actions: seq<Action>) {
    forall k :: 0 <= k <= |actions| ==> Disconnected(Acts(env, n, actions[..k]).worker)
  }

  lemma {:induction false} NothingHandedMeanwhile(env: Environment, n: Node, actions: seq<Action>)
    requires StaysDisconnected(env, n, actions)
    ensures Handed(Acts(env, n, actions).worker.log) == Handed(n.worker.log)
  {
    if actions != [] {
      var shorter, a := actions[..|actions| - 1], actions[|actions| - 1];
      assert forall k :: 0 <= k <= |shorter| ==> shorter[..k] == actions[..k];
      assert actions[..|actions|] == actions;
      NothingHandedMeanwhile(env, n, shorter);
      if a.AtWorker? {
        StepLog(env, Acts(env, n, shorter).worker, a.e);
      }
    }
  }

  lemma {:induction false} WithSent(sent: seq<B.Payload>, fates: seq<B.Fate>, f: B.Fate)
    requires |fates| <= |sent|
    ensures forall p :: p in With(sent, fates, f) ==> p in sent
  {
    if fates != [] {
      WithSent(sent, fates[..|fates| - 1], f);
    }
  }

  /** Payload p is an envelope handed over while no disconnect was in force and the
      gateway was neither paused nor offline. */
  ghost predicate HandedInTime(log: seq<Output>, p: B.Payload) {
    exists k :: 0 <= k < |Handed(log)| && p == [k] && FreeToSend(Handed(log)[k])
  }

  predicate FreeToSend(o: Output) {
    o.Buffered? && !Silenced(o.under, o.gateway)
  }

  lemma Numbering(n: Node, log: seq<Output>, p: B.Payload)
    requires NodeInv(n) && Handed(n.worker.log) == Handed(log) && OutputsAllowed(log)
    requires p in n.buffer.published
    ensures HandedInTime(log, p)
  {
    WithSent(n.buffer.sent, n.buffer.fates, B.Published);
    assert p in n.buffer.sent;
    var k :| 0 <= k < |n.buffer.sent| && n.buffer.sent[k] == p;
    assert n.buffer.begun[k] == p;
    HandedAllowed(log);
    assert FreeToSend(Handed(log)[k]);
  }

  function Opened(row: Row, sensors: seq<Sensor>, capacity: nat): Node {
    Node(Started(row, sensors), B.Empty(capacity))
  }

  lemma OpenedHolds(env: Environment, row: Row, sensors: seq<Sensor>, capacity: nat)
    requires capacity > 0
    ensures NodeInv(Opened(row, sensors, capacity))
  {
    RunKeepsHolding(env, row, sensors, []);
  }

  /** In every run: while a disconnect stays in force, all that is published by the end
      had been handed over before it, at a moment that allowed sending. */
  lemma OnlyOlderEnvelopes(env: Environment, row: Row, sensors: seq<Sensor>, capacity: nat,
                           before: seq<Action>, during: seq<Action>, p: B.Payload)
    requires capacity > 0
    requires StaysDisconnected(env, Acts(env, Opened(row, sensors, capacity), before), during)
    requires p in Acts(env, Acts(env, Opened(row, sensors, capacity), before), during).buffer.published
    ensures HandedInTime(Acts(env, Opened(row, sensors, capacity), before).worker.log, p)
  {
    var start := Opened(row, sensors, capacity);
    var n := Acts(env, start, before);
    OpenedHolds(env, row, sensors, capacity);
    ActsKeep(env, start, before);
    ActsKeep(env, n, during);
    NothingHandedMeanwhile(env, n, during);
    Numbering(Acts(env, n, during), n.worker.log, p);
  }
}
