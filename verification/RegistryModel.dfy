/** The registry under concurrency: provisioning, restoration, teardown, stop and
    start as threads of atomic steps over one store and one worker map. */
module RegistryModel {
  import opened Domain

  datatype Ident = Ident(mgmt: string, tenant: string)

  /** History only: which thread or worker answers for a row or a connection. */
  datatype Owner = Orphan | OfOp(op: nat) | OfWorker(worker: nat)

  datatype Row = Row(id: Ident, provisioned: bool, owner: Owner)

  /** A subscription and its connection, with how often each part was closed. */
  datatype Conn = Conn(owner: Owner, subCloses: nat, pubCloses: nat, ncCloses: nat)

  datatype Life = Launched | Registered | Unregistered

  /** `life`, `unregistered` and `closer` (the thread that won the close) are history. */
  datatype Worker = Worker(
    row: nat,
    id: Ident,
    conn: nat,
    running: bool,
    publisherClosed: bool,
    pumpCancelled: bool,
    pumpExited: bool,
    life: Life,
    unregistered: nat,
    closer: Option<nat>)

  datatype Purpose = ForDelete | ForDecommission | ForStop

  datatype StopStage = SwapRunning | AwaitLoop | ClaimClose | ClosePublisher | CloseConnection

  /** What follows once a worker is registered: the end of a saga, or the
      remaining rows of RestoreAll. */
  datatype Next = Finish | Resume(todo: seq<(nat, Ident)>)

  datatype Op =
    // CreateAndStart
    | Onboarding
    | Persisting(id: Ident)
    | Connecting(row: nat, id: Ident)
    | Listing(row: nat, id: Ident, conn: nat)
    | CloseSub(row: nat, conn: nat)
    | CloseNc(row: nat, conn: nat)
    | Undoing(row: nat)
    | SagaDone(ok: bool)
    // startWorker, for a saga or a restoration
    | Launching(row: nat, id: Ident, conn: nat, next: Next)
    | Registering(worker: nat, next: Next)
    | Counting(next: Next)
    | Marking(next: Next)
    // RestoreAll
    | RestoreNext(todo: seq<(nat, Ident)>)
    | RestoreListing(row: nat, id: Ident, todo: seq<(nat, Ident)>)
    | RestoreConnecting(row: nat, id: Ident, todo: seq<(nat, Ident)>)
    // Delete, HandleDecommission (with its tenant), Stop and StopAll
    | Unregistering(mgmt: string, tenant: Option<string>)
    | StopLooking(mgmt: string)
    | CancelPump(worker: nat, purpose: Purpose)
    | Stopping(worker: nat, stage: StopStage, purpose: Purpose)
    | DeletingRow(worker: nat, purpose: Purpose)
    | CountingDown
    // Start
    | StartLooking(mgmt: string)
    | SwappingOn(worker: nat)
    | Done

  /** Before RestoreAll, during it (by thread `op`), and with the API open. */
  datatype Phase = Fresh | Restoring(op: nat) | Serving

  datatype State = State(
    phase: Phase,
    rows: map<nat, Row>,
    nextRow: nat,
    pool: seq<Worker>,
    workers: map<string, nat>,
    conns: seq<Conn>,
    ops: seq<Op>,
    gauge: int,
    failedDeletes: nat,
    successes: nat,
    failures: nat)

  /** What the outside world answers to one step. */
  datatype Choice = Choice(ok: bool, id: Ident)

  const NO_WORKER := Worker(0, Ident("", ""), 0, false, false, false, false, Unregistered, 0, None)

  const NO_CONN := Conn(Orphan, 0, 0, 0)

  function At(s: State, t: nat, op: Op): State {
    if t < |s.ops| then s.(ops := s.ops[t := op]) else s
  }

  function Of(s: State, w: nat): Worker {
    if w < |s.pool| then s.pool[w] else NO_WORKER
  }

  function SetWorker(s: State, w: nat, x: Worker): State {
    if w < |s.pool| then s.(pool := s.pool[w := x]) else s
  }

  function ConnOf(s: State, c: nat): Conn {
    if c < |s.conns| then s.conns[c] else NO_CONN
  }

  function SetConn(s: State, c: nat, x: Conn): State {
    if c < |s.conns| then s.(conns := s.conns[c := x]) else s
  }

  function SetOwner(s: State, row: nat, owner: Owner): State {
    if row in s.rows then s.(rows := s.rows[row := s.rows[row].(owner := owner)]) else s
  }

  predicate Stored(s: State, mgmt: string) {
    exists r :: r in s.rows && s.rows[r].id.mgmt == mgmt
  }

  // ----- provisioning -----

  function FailSaga(s: State, t: nat): State {
    At(s, t, SagaDone(false)).(failures := s.failures + 1)
  }

  /** CreateGateway: a fresh row id, refused if the management ID is taken. */
  function Persist(s: State, t: nat, id: Ident, ok: bool): State {
    if !ok || Stored(s, id.mgmt) then FailSaga(s, t)
    else At(s.(rows := s.rows[s.nextRow := Row(id, true, OfOp(t))], nextRow := s.nextRow + 1),
            t, Connecting(s.nextRow, id))
  }

  function Connect(s: State, t: nat, row: nat, id: Ident, ok: bool): State {
    if !ok then At(s, t, Undoing(row))
    else At(s.(conns := s.conns + [Conn(OfOp(t), 0, 0, 0)]), t, Listing(row, id, |s.conns|))
  }

  /** The worker is built, its loop and its pump are started; not yet registered. */
  function Launch(s: State, t: nat, row: nat, id: Ident, conn: nat, next: Next): State {
    var w := Worker(row, id, conn, true, false, false, false, Launched, 0, None);
    var s1 := SetConn(s, conn, ConnOf(s, conn).(owner := OfWorker(|s.pool|)));
    At(s1.(pool := s1.pool + [w]), t, Registering(|s.pool|, next))
  }

  function List(s: State, t: nat, row: nat, id: Ident, conn: nat, ok: bool): State {
    At(s, t, if ok then Launching(row, id, conn, Finish) else CloseSub(row, conn))
  }

  function Undo(s: State, t: nat, row: nat, ok: bool): State {
    FailSaga(if ok then s.(rows := s.rows - {row}) else SetOwner(s, row, Orphan), t)
  }

  /** `r.workers[id] = w`, whatever was there before. */
  function Register(s: State, t: nat, w: nat, next: Next): State {
    var x := Of(s, w);
    var s1 := SetWorker(s, w, x.(life := Registered));
    var s2 := SetOwner(s1, x.row, OfWorker(w));
    At(s2.(workers := s2.workers[x.id.mgmt := w]), t, Counting(next))
  }

  function Mark(s: State, t: nat, next: Next): State {
    match next
    case Finish => At(s, t, SagaDone(true)).(successes := s.successes + 1)
    case Resume(todo) => At(s, t, RestoreNext(todo))
  }

  // ----- restoration -----

  predicate Lists(s: State, todo: seq<(nat, Ident)>) {
    && (forall i, j :: 0 <= i < j < |todo| ==> todo[i].0 != todo[j].0)
    && (forall i :: 0 <= i < |todo| ==>
          todo[i].0 in s.rows && s.rows[todo[i].0].provisioned && s.rows[todo[i].0].id == todo[i].1)
    && (forall r :: r in s.rows && s.rows[r].provisioned ==> exists i :: 0 <= i < |todo| && todo[i].0 == r)
  }

  function Claimed(rows: map<nat, Row>, t: nat): map<nat, Row> {
    map r | r in rows :: if rows[r].provisioned then rows[r].(owner := OfOp(t)) else rows[r]
  }

  function RestoreStep(s: State, t: nat, todo: seq<(nat, Ident)>): State {
    if todo == [] then At(s, t, Done)
    else At(s, t, RestoreListing(todo[0].0, todo[0].1, todo[1..]))
  }

  function SkipRow(s: State, t: nat, row: nat, todo: seq<(nat, Ident)>): State {
    At(SetOwner(s, row, Orphan), t, RestoreNext(todo))
  }

  function RestoreConnect(s: State, t: nat, row: nat, id: Ident, todo: seq<(nat, Ident)>, ok: bool): State {
    if !ok then SkipRow(s, t, row, todo)
    else At(s.(conns := s.conns + [Conn(OfOp(t), 0, 0, 0)]), t, Launching(row, id, |s.conns|, Resume(todo)))
  }

  // ----- teardown, stop and start -----

  /** Under the registry's lock: look the worker up and take it out of the map. */
  function Unregister(s: State, t: nat, mgmt: string, tenant: Option<string>): State {
    if mgmt !in s.workers then At(s, t, Done)
    else
      var w := s.workers[mgmt];
      var x := Of(s, w);
      if tenant.Some? && x.id.tenant != tenant.value then At(s, t, Done)
      else
        var s1 := SetWorker(s, w, x.(life := Unregistered, unregistered := x.unregistered + 1));
        var s2 := SetOwner(s1, x.row, OfOp(t));
        At(s2.(workers := s2.workers - {mgmt}), t, CancelPump(w, if tenant.Some? then ForDecommission else ForDelete))
  }

  function AfterStop(s: State, t: nat, w: nat, purpose: Purpose): State {
    At(s, t, if purpose == ForStop then Done else DeletingRow(w, purpose))
  }

  /** The worker's Stop, one atomic operation at a time. */
  function StopStep(s: State, t: nat, w: nat, stage: StopStage, purpose: Purpose): State {
    var x := Of(s, w);
    var c := ConnOf(s, x.conn);
    match stage
    case SwapRunning =>
      if !x.running then AfterStop(s, t, w, purpose)
      else At(SetWorker(s, w, x.(running := false)), t, Stopping(w, AwaitLoop, purpose))
    case AwaitLoop => At(s, t, Stopping(w, ClaimClose, purpose))
    case ClaimClose =>
      if x.publisherClosed then AfterStop(s, t, w, purpose)
      else At(SetWorker(s, w, x.(publisherClosed := true, closer := Some(t))), t, Stopping(w, ClosePublisher, purpose))
    case ClosePublisher =>
      At(SetConn(s, x.conn, c.(pubCloses := c.pubCloses + 1)), t, Stopping(w, CloseConnection, purpose))
    case CloseConnection =>
      AfterStop(SetConn(s, x.conn, c.(ncCloses := c.ncCloses + 1)), t, w, purpose)
  }

  function DeleteRow(s: State, t: nat, w: nat, purpose: Purpose, ok: bool): State {
    var row := Of(s, w).row;
    if ok then At(s.(rows := s.rows - {row}), t, CountingDown)
    else
      var s1 := SetOwner(s, row, Orphan);
      if purpose == ForDelete then At(s1, t, Done).(failedDeletes := s.failedDeletes + 1)
      else At(s1, t, CountingDown)
  }

  // ----- steps -----

  function Advance(s: State, t: nat, c: Choice): State
    requires t < |s.ops|
  {
    match s.ops[t]
    case Onboarding => if c.ok then At(s, t, Persisting(c.id)) else FailSaga(s, t)
    case Persisting(id) => Persist(s, t, id, c.ok)
    case Connecting(row, id) => Connect(s, t, row, id, c.ok)
    case Listing(row, id, conn) => List(s, t, row, id, conn, c.ok)
    case CloseSub(row, conn) =>
      var x := ConnOf(s, conn);
      At(SetConn(s, conn, x.(subCloses := x.subCloses + 1)), t, CloseNc(row, conn))
    case CloseNc(row, conn) =>
      var x := ConnOf(s, conn);
      At(SetConn(s, conn, x.(ncCloses := x.ncCloses + 1, owner := Orphan)), t, Undoing(row))
    case Undoing(row) => Undo(s, t, row, c.ok)
    case Launching(row, id, conn, next) => Launch(s, t, row, id, conn, next)
    case Registering(w, next) => Register(s, t, w, next)
    case Counting(next) => At(s, t, Marking(next)).(gauge := s.gauge + 1)
    case Marking(next) => Mark(s, t, next)
    case RestoreNext(todo) => RestoreStep(s, t, todo)
    case RestoreListing(row, id, todo) =>
      if c.ok then At(s, t, RestoreConnecting(row, id, todo)) else SkipRow(s, t, row, todo)
    case RestoreConnecting(row, id, todo) => RestoreConnect(s, t, row, id, todo, c.ok)
    case Unregistering(mgmt, tenant) => Unregister(s, t, mgmt, tenant)
    case StopLooking(mgmt) =>
      At(s, t, if mgmt in s.workers then CancelPump(s.workers[mgmt], ForStop) else Done)
    case CancelPump(w, purpose) =>
      At(SetWorker(s, w, Of(s, w).(pumpCancelled := true)), t, Stopping(w, SwapRunning, purpose))
    case Stopping(w, stage, purpose) => StopStep(s, t, w, stage, purpose)
    case DeletingRow(w, purpose) => DeleteRow(s, t, w, purpose, c.ok)
    case CountingDown => At(s, t, Done).(gauge := s.gauge - 1)
    case StartLooking(mgmt) =>
      At(s, t, if mgmt in s.workers && !Of(s, s.workers[mgmt]).running then SwappingOn(s.workers[mgmt]) else Done)
    case SwappingOn(w) => At(SetWorker(s, w, Of(s, w).(running := true)), t, Done)
    case SagaDone(_) => s
    case Done => s
  }

  datatype Event =
    | Create
    | Delete(mgmt: string)
    | Decommission(mgmt: string, tenant: string)
    | Stop(mgmt: string)
    | Start(mgmt: string)
    | RestoreAll(listing: seq<(nat, Ident)>)
    | OpenApi
    | Proceed(op: nat, choice: Choice)
    | PumpExits(worker: nat)
    | Crash

  function Spawn(s: State, op: Op): State {
    s.(ops := s.ops + [op])
  }

  function Restarted(s: State): State {
    State(Fresh, map r | r in s.rows :: s.rows[r].(owner := Orphan), s.nextRow, [], map[], [], [], 0, 0, 0, 0)
  }

  /** A pump that sees its context cancelled closes the subscription and ends. */
  function PumpExit(s: State, w: nat): State {
    var x := Of(s, w);
    if !x.pumpCancelled || x.pumpExited then s
    else
      var c := ConnOf(s, x.conn);
      SetConn(SetWorker(s, w, x.(pumpExited := true)), x.conn, c.(subCloses := c.subCloses + 1))
  }

  /** Requests through the API need it open; decommission events may always come. */
  function Step(s: State, e: Event): State {
    match e
    case Create => if s.phase == Serving then Spawn(s, Onboarding) else s
    case Delete(mgmt) => if s.phase == Serving then Spawn(s, Unregistering(mgmt, None)) else s
    case Stop(mgmt) => if s.phase == Serving then Spawn(s, StopLooking(mgmt)) else s
    case Start(mgmt) => if s.phase == Serving then Spawn(s, StartLooking(mgmt)) else s
    case Decommission(mgmt, tenant) => Spawn(s, Unregistering(mgmt, Some(tenant)))
    case RestoreAll(listing) =>
      if s.phase == Fresh && Lists(s, listing)
      then Spawn(s, RestoreNext(listing)).(rows := Claimed(s.rows, |s.ops|), phase := Restoring(|s.ops|))
      else s
    case OpenApi =>
      if s.phase == Fresh || (s.phase.Restoring? && s.phase.op < |s.ops| && s.ops[s.phase.op] == Done)
      then s.(phase := Serving) else s
    case Proceed(t, c) => if t < |s.ops| then Advance(s, t, c) else s
    case PumpExits(w) => if w < |s.pool| then PumpExit(s, w) else s
    case Crash => Restarted(s)
  }

  const EMPTY := State(Fresh, map[], 0, [], map[], [], [], 0, 0, 0, 0)

  function Run(es: seq<Event>): State {
    if es == [] then EMPTY else Step(Run(es[..|es| - 1]), es[|es| - 1])
  }
}
