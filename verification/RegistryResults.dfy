/** What the invariant gives for every run of the registry: the index, the closers,
    the gauge and the counters. */
module RegistryResults {
  import opened Domain
  import opened RegistryModel
  import opened RegistryProofs
  import opened RegistrySteps

  // ----- the index -----

  /** Worker w is registered, or a thread is between unregistering it and deleting
      its row. */
  ghost predicate Held(s: State, w: nat) {
    && w < |s.pool|
    && (s.pool[w].life == Registered || exists t :: 0 <= t < |s.ops| && Leaves(s.ops[t], w))
  }

  predicate Leaves(op: Op, w: nat) {
    (op.CancelPump? || op.Stopping? || op.DeletingRow?) && op.worker == w && op.purpose != ForStop
  }

  lemma RegisteredUnderOwnId(es: seq<Event>, mgmt: string)
    requires mgmt in Run(es).workers
    ensures
      var s := Run(es);
      var w := s.workers[mgmt];
      && w < |s.pool| && s.pool[w].life == Registered && s.pool[w].id.mgmt == mgmt
      && s.pool[w].row in s.rows && s.rows[s.pool[w].row].id == s.pool[w].id
  {
    RunKeeps(es);
    assert Indexed(Run(es), mgmt);
  }

  lemma HolderOf(s: State, w: nat)
    requires Inv(s) && Held(s, w)
    ensures s.pool[w].row in s.rows
    ensures s.rows[s.pool[w].row].owner == OfWorker(w)
         || exists t :: 0 <= t < |s.ops| && Leaves(s.ops[t], w) && s.rows[s.pool[w].row].owner == OfOp(t)
  {
    if s.pool[w].life == Registered {
      assert WorkerInv(s, w);
      assert Indexed(s, s.pool[w].id.mgmt);
    } else {
      var t :| 0 <= t < |s.ops| && Leaves(s.ops[t], w);
      assert OpInv(s, t);
      assert Leaves(s.ops[t], w) && s.rows[s.pool[w].row].owner == OfOp(t);
    }
  }

  /** No two workers that are registered or being torn down share a row. */
  lemma RowsNotShared(es: seq<Event>, v: nat, w: nat)
    requires Held(Run(es), v) && Held(Run(es), w) && v != w
    ensures Run(es).pool[v].row != Run(es).pool[w].row
  {
    RunKeeps(es);
    HolderOf(Run(es), v);
    HolderOf(Run(es), w);
  }

  /** When a worker is registered its management ID is free: nothing is overwritten. */
  lemma RegistrationAdds(es: seq<Event>, t: nat, c: Choice)
    requires t < |Run(es).ops| && Run(es).ops[t].Registering?
    ensures
      var s := Run(es);
      var s' := Run(es + [Proceed(t, c)]);
      var w := s.ops[t].worker;
      && w < |s.pool| && s.pool[w].id.mgmt !in s.workers
      && s'.workers == s.workers[s.pool[w].id.mgmt := w]
      && |s'.workers| == |s.workers| + 1
  {
    RunKeeps(es);
    var s := Run(es);
    assert OpInv(s, t);
    var w := s.ops[t].worker;
    NotOverwritten(s, t, s.pool[w].row, s.pool[w].id);
    assert (es + [Proceed(t, c)])[..|es|] == es;
    MapGrown(s.workers, s.pool[w].id.mgmt, w);
  }

  /** InjectSensorOutlier's search: the first worker in the map's order with this row. */
  function Scan(s: State, order: seq<string>, row: nat): Option<nat> {
    if order == [] then None
    else if order[0] in s.workers && Of(s, s.workers[order[0]]).row == row then Some(s.workers[order[0]])
    else Scan(s, order[1..], row)
  }

  ghost predicate Orders(s: State, order: seq<string>) {
    forall m :: m in order <==> m in s.workers
  }

  lemma {:induction false} ScanFinds(s: State, order: seq<string>, row: nat)
    requires MapInv(s)
    ensures Scan(s, order, row).Some? ==>
      exists m :: m in order && m in s.workers && s.workers[m] == Scan(s, order, row).value
        && Of(s, s.workers[m]).row == row
    ensures Scan(s, order, row).None? ==> forall m :: m in order && m in s.workers ==> Of(s, s.workers[m]).row != row
  {
    if order != [] && !(order[0] in s.workers && Of(s, s.workers[order[0]]).row == row) {
      ScanFinds(s, order[1..], row);
    }
  }

  /** The search finds the same worker whatever order the map is walked in, and
      finds one exactly when a registered worker has this row. */
  lemma ScanOrderIrrelevant(es: seq<Event>, order: seq<string>, other: seq<string>, row: nat)
    requires Orders(Run(es), order) && Orders(Run(es), other)
    ensures Scan(Run(es), order, row) == Scan(Run(es), other, row)
    ensures Scan(Run(es), order, row).Some? <==>
      (exists m :: m in Run(es).workers && Of(Run(es), Run(es).workers[m]).row == row)
  {
    var s := Run(es);
    RunKeeps(es);
    ScanFinds(s, order, row);
    ScanFinds(s, other, row);
    forall m, n | m in s.workers && n in s.workers && Of(s, s.workers[m]).row == row && Of(s, s.workers[n]).row == row
      ensures s.workers[m] == s.workers[n]
    {
      assert Indexed(s, m) && Indexed(s, n);
    }
  }

  // ----- closing -----

  /** Each worker leaves the map at most once, and its subscription, publisher and
      connection are each closed at most once, by whatever threads race for them. */
  lemma ClosedAtMostOnce(es: seq<Event>, w: nat)
    requires w < |Run(es).pool|
    ensures
      var x := Run(es).pool[w];
      && x.unregistered <= 1 && x.conn < |Run(es).conns|
      && Run(es).conns[x.conn].subCloses <= 1
      && Run(es).conns[x.conn].pubCloses <= 1
      && Run(es).conns[x.conn].ncCloses <= 1
  {
    RunKeeps(es);
    assert WorkerInv(Run(es), w);
  }

  lemma ConnsNotShared(es: seq<Event>, v: nat, w: nat)
    requires v < |Run(es).pool| && w < |Run(es).pool| && v != w
    ensures Run(es).pool[v].conn != Run(es).pool[w].conn
  {
    RunKeeps(es);
    assert WorkerInv(Run(es), v) && WorkerInv(Run(es), w);
  }

  predicate Finished(op: Op) {
    op.SagaDone? || op.Done?
  }

  ghost predicate Quiet(s: State) {
    forall t :: 0 <= t < |s.ops| ==> Finished(s.ops[t])
  }

  ghost predicate Settled(s: State, c: nat)
    requires c < |s.conns|
  {
    var conn := s.conns[c];
    match conn.owner
    case Orphan => conn.subCloses == 1 && conn.ncCloses == 1
    case OfOp(_) => false
    case OfWorker(w) =>
      && w < |s.pool| && s.pool[w].conn == c
      && conn.pubCloses == conn.ncCloses
      && conn.ncCloses == (if s.pool[w].publisherClosed then 1 else 0)
      && conn.subCloses == (if s.pool[w].pumpExited then 1 else 0)
  }

  lemma LeakFree(s: State, c: nat)
    requires Inv(s) && Quiet(s) && c < |s.conns|
    ensures Settled(s, c)
  {
    assert ConnInv(s, c);
    assert s.conns[c].owner.OfOp? ==> Finished(s.ops[s.conns[c].owner.op]);
    match s.conns[c].owner {
      case OfWorker(w) =>
        assert WorkerInv(s, w);
        if s.pool[w].closer.Some? {
          assert Finished(s.ops[s.pool[w].closer.value]);
        }
      case OfOp(_) =>
      case Orphan =>
    }
  }

  /** Once every thread has ended, no connection is left behind: each belongs to one
      worker, whose closers ran together once or not at all, or was opened by a
      failed saga that closed its subscription and its connection once each. */
  lemma NothingLeaks(es: seq<Event>, c: nat)
    requires Quiet(Run(es)) && c < |Run(es).conns|
    ensures Settled(Run(es), c)
  {
    RunKeeps(es);
    LeakFree(Run(es), c);
  }

  lemma MapKeptByStop(s: State, t: nat, w: nat, stage: StopStage, purpose: Purpose)
    requires t < |s.ops|
    ensures StopStep(s, t, w, stage, purpose).workers == s.workers
  {
  }

  lemma MapKeptByTeardown(s: State, t: nat, c: Choice)
    requires t < |s.ops| && TearsDown(s.ops[t]) && !s.ops[t].Unregistering?
    ensures Advance(s, t, c).workers == s.workers
  {
    var op := s.ops[t];
    if op.Stopping? {
      MapKeptByStop(s, t, op.worker, op.stage, op.purpose);
    } else if op.DeletingRow? {
      assert DeleteRow(s, t, op.worker, op.purpose, c.ok).workers == s.workers;
    }
  }

  lemma MapKept(s: State, t: nat, c: Choice)
    requires t < |s.ops| && !s.ops[t].Unregistering? && !s.ops[t].Registering?
    ensures Advance(s, t, c).workers == s.workers
  {
    if TearsDown(s.ops[t]) {
      MapKeptByTeardown(s, t, c);
    }
  }

  lemma NothingRemoved(s: State, t: nat, c: Choice)
    requires t < |s.ops| && !s.ops[t].Unregistering?
    ensures s.workers.Keys <= Advance(s, t, c).workers.Keys
  {
    if !s.ops[t].Registering? {
      MapKept(s, t, c);
    }
  }

  lemma OnlyProceedRemoves(s: State, e: Event)
    requires e != Crash
    ensures s.workers.Keys <= Step(s, e).workers.Keys
         || (e.Proceed? && e.op < |s.ops| && s.ops[e.op].Unregistering? && s.ops[e.op].mgmt in s.workers
             && Step(s, e).workers == s.workers - {s.ops[e.op].mgmt}
             && (s.ops[e.op].tenant.Some? ==> s.ops[e.op].tenant.value == Of(s, s.workers[s.ops[e.op].mgmt]).id.tenant))
  {
    match e {
      case Proceed(t, c) =>
        if t < |s.ops| && !s.ops[t].Unregistering? {
          NothingRemoved(s, t, c);
        }
      case _ =>
    }
  }

  /** Only a deletion, or a decommission for the worker's own tenant, takes a worker
      out of the map. */
  lemma RemovedByOwnTenant(es: seq<Event>, e: Event, mgmt: string)
    requires mgmt in Run(es).workers && mgmt !in Run(es + [e]).workers && e != Crash
    ensures
      && e.Proceed? && e.op < |Run(es).ops| && Run(es).ops[e.op].Unregistering?
      && Run(es).ops[e.op].mgmt == mgmt
      && (Run(es).ops[e.op].tenant.Some? ==>
            Run(es).ops[e.op].tenant.value == Of(Run(es), Run(es).workers[mgmt]).id.tenant)
  {
    assert (es + [e])[..|es|] == es;
    OnlyProceedRemoves(Run(es), e);
  }

  /** A decommission for another tenant only ends its own thread. */
  lemma OtherTenantIgnored(es: seq<Event>, t: nat, mgmt: string, tenant: string, c: Choice)
    requires t < |Run(es).ops| && Run(es).ops[t] == Unregistering(mgmt, Some(tenant))
    requires forall m :: m in Run(es).workers && m == mgmt ==> Of(Run(es), Run(es).workers[m]).id.tenant != tenant
    ensures Run(es + [Proceed(t, c)]) == Run(es).(ops := Run(es).ops[t := Done])
  {
    var s := Run(es);
    assert (es + [Proceed(t, c)])[..|es|] == es;
    assert Unregister(s, t, mgmt, Some(tenant)) == At(s, t, Done);
    assert Step(s, Proceed(t, c)) == Advance(s, t, c);
  }

  /** The event takes the worker registered under this ID away: a crash, a deletion, or
      a decommission for the worker's own tenant. */
  predicate Removes(s: State, e: Event, mgmt: string) {
    e == Crash || (e.Proceed? && e.op < |s.ops| && UnregistersOwn(s, s.ops[e.op], mgmt))
  }

  predicate UnregistersOwn(s: State, op: Op, mgmt: string) {
    && op.Unregistering? && op.mgmt == mgmt && mgmt in s.workers
    && (op.tenant.None? || op.tenant.value == Of(s, s.workers[mgmt]).id.tenant)
  }

  lemma UnregisterLeaves(s: State, t: nat, id: string, tenant: Option<string>, mgmt: string)
    requires t < |s.ops| && mgmt in s.workers && !UnregistersOwn(s, Unregistering(id, tenant), mgmt)
    ensures var s' := Unregister(s, t, id, tenant);
            mgmt in s'.workers && s'.workers[mgmt] == s.workers[mgmt]
  {
  }

  lemma WorkerStays(s: State, e: Event, mgmt: string)
    requires Inv(s) && mgmt in s.workers && !Removes(s, e, mgmt)
    ensures mgmt in Step(s, e).workers && Step(s, e).workers[mgmt] == s.workers[mgmt]
  {
    if e.Proceed? && e.op < |s.ops| {
      var op := s.ops[e.op];
      if op.Registering? {
        assert OpInv(s, e.op);
        NotOverwritten(s, e.op, s.pool[op.worker].row, s.pool[op.worker].id);
        assert Register(s, e.op, op.worker, op.next).workers == s.workers[s.pool[op.worker].id.mgmt := op.worker];
      } else if op.Unregistering? {
        UnregisterLeaves(s, e.op, op.mgmt, op.tenant, mgmt);
      } else {
        MapKept(s, e.op, e.choice);
      }
    }
  }

  ghost predicate Undisturbed(es: seq<Event>, n: nat, mgmt: string) {
    forall k :: n <= k < |es| ==> !Removes(Run(es[..k]), es[k], mgmt)
  }

  lemma RunLast(es: seq<Event>)
    requires es != []
    ensures Run(es) == Step(Run(es[..|es| - 1]), es[|es| - 1])
  {
  }

  lemma UndisturbedBefore(es: seq<Event>, n: nat, mgmt: string)
    requires n < |es| && Undisturbed(es, n, mgmt)
    ensures Undisturbed(es[..|es| - 1], n, mgmt) && !Removes(Run(es[..|es| - 1]), es[|es| - 1], mgmt)
    ensures es[..|es| - 1][..n] == es[..n]
  {
    var shorter := es[..|es| - 1];
    forall k | n <= k < |shorter| ensures !Removes(Run(shorter[..k]), shorter[k], mgmt) {
      assert shorter[..k] == es[..k];
    }
  }

  /** Registered after n events, the same worker stays registered under its ID through
      any further events but those, decommissions for other tenants among them. */
  lemma {:induction false} StaysRegistered(es: seq<Event>, n: nat, mgmt: string)
    requires n <= |es| && mgmt in Run(es[..n]).workers && Undisturbed(es, n, mgmt)
    ensures mgmt in Run(es).workers && Run(es).workers[mgmt] == Run(es[..n]).workers[mgmt]
  {
    if n == |es| {
      assert es[..n] == es;
    } else {
      var shorter := es[..|es| - 1];
      UndisturbedBefore(es, n, mgmt);
      StaysRegistered(shorter, n, mgmt);
      RunKeeps(shorter);
      WorkerStays(Run(shorter), es[|es| - 1], mgmt);
      RunLast(es);
    }
  }

  // ----- the gauge and the counters -----

  datatype Count = Owed | Succeeded | Failed | Unfinished

  predicate IsSaga(op: Op) {
    match op
    case Onboarding => true
    case Persisting(_) => true
    case Connecting(_, _) => true
    case Listing(_, _, _) => true
    case CloseSub(_, _) => true
    case CloseNc(_, _) => true
    case Undoing(_) => true
    case Launching(_, _, _, next) => next.Finish?
    case Registering(_, next) => next.Finish?
    case Counting(next) => next.Finish?
    case Marking(next) => next.Finish?
    case _ => false
  }

  /** Between unregistering a worker and lowering the gauge for it. */
  predicate OwesDecrement(op: Op) {
    op.CountingDown? || ((op.CancelPump? || op.Stopping? || op.DeletingRow?) && op.purpose != ForStop)
  }

  function Score(op: Op, k: Count): int {
    match k
    case Owed => if op.Counting? then -1 else if OwesDecrement(op) then 1 else 0
    case Succeeded => if op == SagaDone(true) then 1 else 0
    case Failed => if op == SagaDone(false) then 1 else 0
    case Unfinished => if IsSaga(op) then 1 else 0
  }

  function Total(ops: seq<Op>, k: Count): int {
    if ops == [] then 0 else Total(ops[..|ops| - 1], k) + Score(ops[|ops| - 1], k)
  }

  lemma {:induction false} TotalUpdate(ops: seq<Op>, t: nat, op: Op, k: Count)
    requires t < |ops|
    ensures Total(ops[t := op], k) == Total(ops, k) - Score(ops[t], k) + Score(op, k)
  {
    var n := |ops| - 1;
    if t == n {
      assert ops[t := op][..n] == ops[..n];
    } else {
      assert ops[t := op][..n] == ops[..n][t := op];
      TotalUpdate(ops[..n], t, op, k);
    }
  }

  lemma {:induction false} TotalQuiet(ops: seq<Op>, k: Count)
    requires forall t :: 0 <= t < |ops| ==> Finished(ops[t])
    requires k == Owed || k == Unfinished
    ensures Total(ops, k) == 0
  {
    if ops != [] {
      TotalQuiet(ops[..|ops| - 1], k);
    }
  }

  ghost predicate GaugeInv(s: State) {
    s.gauge == |s.workers| + s.failedDeletes + Total(s.ops, Owed)
  }

  ghost predicate CountersInv(s: State, created: nat) {
    && s.successes == Total(s.ops, Succeeded)
    && s.failures == Total(s.ops, Failed)
    && s.successes + s.failures + Total(s.ops, Unfinished) == created
  }

  ghost predicate Books(s: State, created: nat) {
    GaugeInv(s) && CountersInv(s, created)
  }

  /** What thread t owes the gauge and the counters moves with them. */
  ghost predicate Tells(s: State, s': State, t: nat)
    requires t < |s.ops|
  {
    && |s'.ops| == |s.ops| && s'.ops == s.ops[t := s'.ops[t]]
    && s'.gauge - |s'.workers| - s'.failedDeletes - Score(s'.ops[t], Owed)
       == s.gauge - |s.workers| - s.failedDeletes - Score(s.ops[t], Owed)
    && s'.successes == s.successes - Score(s.ops[t], Succeeded) + Score(s'.ops[t], Succeeded)
    && s'.failures == s.failures - Score(s.ops[t], Failed) + Score(s'.ops[t], Failed)
    && s'.successes + s'.failures + Score(s'.ops[t], Unfinished)
       == s.successes + s.failures + Score(s.ops[t], Unfinished)
  }

  lemma TellsOpening(s: State, t: nat, c: Choice)
    requires t < |s.ops| && (s.ops[t].Onboarding? || s.ops[t].Persisting? || s.ops[t].Connecting? || s.ops[t].Listing?)
    ensures Tells(s, Advance(s, t, c), t)
  {
  }

  /** A step that leaves the map and the counters alone and owes what it owed. */
  lemma TellsQuietly(s: State, s': State, t: nat, op: Op)
    requires t < |s.ops| && s'.ops == s.ops[t := op] && s'.workers == s.workers
    requires s'.gauge == s.gauge && s'.failedDeletes == s.failedDeletes
    requires s'.successes == s.successes && s'.failures == s.failures
    requires Score(op, Owed) == Score(s.ops[t], Owed) && Score(op, Unfinished) == Score(s.ops[t], Unfinished)
    requires Score(op, Succeeded) == Score(s.ops[t], Succeeded) && Score(op, Failed) == Score(s.ops[t], Failed)
    ensures Tells(s, s', t)
  {
  }

  lemma TellsCompensation(s: State, t: nat, c: Choice)
    requires t < |s.ops| && (s.ops[t].CloseSub? || s.ops[t].CloseNc? || s.ops[t].Undoing?)
    ensures Tells(s, Advance(s, t, c), t)
  {
    match s.ops[t] {
      case CloseSub(row, conn) => TellsQuietly(s, Advance(s, t, c), t, CloseNc(row, conn));
      case CloseNc(row, _) => TellsQuietly(s, Advance(s, t, c), t, Undoing(row));
      case Undoing(row) => TellsUndo(s, t, row, c.ok);
    }
  }

  lemma TellsUndo(s: State, t: nat, row: nat, ok: bool)
    requires t < |s.ops| && s.ops[t] == Undoing(row)
    ensures Tells(s, Undo(s, t, row, ok), t)
  {
  }

  lemma TellsLaunch(s: State, t: nat, row: nat, id: Ident, conn: nat, next: Next)
    requires t < |s.ops| && s.ops[t] == Launching(row, id, conn, next)
    ensures Tells(s, Launch(s, t, row, id, conn, next), t)
  {
    TellsQuietly(s, Launch(s, t, row, id, conn, next), t, Registering(|s.pool|, next));
  }

  lemma TellsMark(s: State, t: nat, next: Next)
    requires t < |s.ops| && s.ops[t] == Marking(next)
    ensures Tells(s, Mark(s, t, next), t)
  {
    if next.Resume? {
      TellsQuietly(s, Mark(s, t, next), t, RestoreNext(next.todo));
    }
  }

  lemma TellsStarting(s: State, t: nat, c: Choice)
    requires t < |s.ops| && (s.ops[t].Launching? || s.ops[t].Counting? || s.ops[t].Marking?)
    ensures Tells(s, Advance(s, t, c), t)
  {
    var op := s.ops[t];
    if op.Launching? {
      TellsLaunch(s, t, op.row, op.id, op.conn, op.next);
    } else if op.Marking? {
      TellsMark(s, t, op.next);
    }
  }

  lemma TellsRegister(s: State, t: nat, w: nat, next: Next)
    requires Inv(s) && t < |s.ops| && s.ops[t] == Registering(w, next)
    ensures Tells(s, Register(s, t, w, next), t)
  {
    assert OpInv(s, t);
    NotOverwritten(s, t, s.pool[w].row, s.pool[w].id);
    MapGrown(s.workers, s.pool[w].id.mgmt, w);
  }

  lemma TellsSkip(s: State, t: nat, row: nat, todo: seq<(nat, Ident)>)
    requires t < |s.ops| && (s.ops[t].RestoreListing? || s.ops[t].RestoreConnecting?)
    ensures Tells(s, SkipRow(s, t, row, todo), t)
  {
    TellsQuietly(s, SkipRow(s, t, row, todo), t, RestoreNext(todo));
  }

  lemma TellsRestoreStep(s: State, t: nat, todo: seq<(nat, Ident)>)
    requires t < |s.ops| && s.ops[t] == RestoreNext(todo)
    ensures Tells(s, RestoreStep(s, t, todo), t)
  {
    TellsQuietly(s, RestoreStep(s, t, todo), t,
                 if todo == [] then Done else RestoreListing(todo[0].0, todo[0].1, todo[1..]));
  }

  lemma TellsRestoreConnect(s: State, t: nat, row: nat, id: Ident, todo: seq<(nat, Ident)>, ok: bool)
    requires t < |s.ops| && s.ops[t] == RestoreConnecting(row, id, todo)
    ensures Tells(s, RestoreConnect(s, t, row, id, todo, ok), t)
  {
    if ok {
      TellsQuietly(s, RestoreConnect(s, t, row, id, todo, true), t, Launching(row, id, |s.conns|, Resume(todo)));
    } else {
      TellsSkip(s, t, row, todo);
    }
  }

  lemma TellsRestore(s: State, t: nat, c: Choice)
    requires t < |s.ops| && Restores(s.ops[t])
    ensures Tells(s, Advance(s, t, c), t)
  {
    var op := s.ops[t];
    if op.RestoreNext? {
      TellsRestoreStep(s, t, op.todo);
    } else if op.RestoreConnecting? {
      TellsRestoreConnect(s, t, op.row, op.id, op.todo, c.ok);
    } else if c.ok {
      TellsQuietly(s, Advance(s, t, c), t, RestoreConnecting(op.row, op.id, op.todo));
    } else {
      TellsSkip(s, t, op.row, op.todo);
    }
  }

  lemma TellsProvision(s: State, t: nat, c: Choice)
    requires Inv(s) && t < |s.ops| && !Restores(s.ops[t]) && !TearsDown(s.ops[t])
    ensures Tells(s, Advance(s, t, c), t)
  {
    var op := s.ops[t];
    if op.Registering? {
      TellsRegister(s, t, op.worker, op.next);
    } else if op.Onboarding? || op.Persisting? || op.Connecting? || op.Listing? {
      TellsOpening(s, t, c);
    } else if op.CloseSub? || op.CloseNc? || op.Undoing? {
      TellsCompensation(s, t, c);
    } else if op.Launching? || op.Counting? || op.Marking? {
      TellsStarting(s, t, c);
    } else {
      assert Finished(op);
    }
  }

  lemma Unregisters(s: State, t: nat, mgmt: string, tenant: Option<string>)
    requires t < |s.ops| && mgmt in s.workers
    requires tenant.None? || Of(s, s.workers[mgmt]).id.tenant == tenant.value
    ensures
      var s' := Unregister(s, t, mgmt, tenant);
      var op := CancelPump(s.workers[mgmt], if tenant.Some? then ForDecommission else ForDelete);
      s' == s.(ops := s.ops[t := op], workers := s.workers - {mgmt}, pool := s'.pool, rows := s'.rows)
  {
  }

  lemma TellsUnregister(s: State, t: nat, mgmt: string, tenant: Option<string>)
    requires t < |s.ops| && s.ops[t] == Unregistering(mgmt, tenant)
    ensures Tells(s, Unregister(s, t, mgmt, tenant), t)
  {
    if mgmt in s.workers && (tenant.None? || Of(s, s.workers[mgmt]).id.tenant == tenant.value) {
      Unregisters(s, t, mgmt, tenant);
      MapShrunk(s.workers, mgmt);
    } else {
      assert Unregister(s, t, mgmt, tenant) == At(s, t, Done);
    }
  }

  lemma TellsStop(s: State, t: nat, w: nat, stage: StopStage, purpose: Purpose)
    requires t < |s.ops| && s.ops[t] == Stopping(w, stage, purpose)
    ensures Tells(s, StopStep(s, t, w, stage, purpose), t)
  {
    match stage {
      case SwapRunning => TellsSwap(s, t, w, purpose);
      case AwaitLoop =>
      case ClaimClose => TellsClaim(s, t, w, purpose);
      case ClosePublisher => TellsClose(s, t, w, stage, purpose);
      case CloseConnection => TellsClose(s, t, w, stage, purpose);
    }
  }

  lemma TellsSwap(s: State, t: nat, w: nat, purpose: Purpose)
    requires t < |s.ops| && s.ops[t] == Stopping(w, SwapRunning, purpose)
    ensures Tells(s, StopStep(s, t, w, SwapRunning, purpose), t)
  {
  }

  lemma TellsClaim(s: State, t: nat, w: nat, purpose: Purpose)
    requires t < |s.ops| && s.ops[t] == Stopping(w, ClaimClose, purpose)
    ensures Tells(s, StopStep(s, t, w, ClaimClose, purpose), t)
  {
    var s' := StopStep(s, t, w, ClaimClose, purpose);
    if Of(s, w).publisherClosed {
      TellsQuietly(s, s', t, if purpose == ForStop then Done else DeletingRow(w, purpose));
    } else {
      TellsQuietly(s, s', t, Stopping(w, ClosePublisher, purpose));
    }
  }

  lemma TellsClose(s: State, t: nat, w: nat, stage: StopStage, purpose: Purpose)
    requires t < |s.ops| && s.ops[t] == Stopping(w, stage, purpose) && Closing(stage)
    ensures Tells(s, StopStep(s, t, w, stage, purpose), t)
  {
    var s' := StopStep(s, t, w, stage, purpose);
    if stage == ClosePublisher {
      TellsQuietly(s, s', t, Stopping(w, CloseConnection, purpose));
    } else {
      TellsQuietly(s, s', t, if purpose == ForStop then Done else DeletingRow(w, purpose));
    }
  }

  lemma TellsDeleteRow(s: State, t: nat, w: nat, purpose: Purpose, ok: bool)
    requires t < |s.ops| && s.ops[t] == DeletingRow(w, purpose) && purpose != ForStop
    ensures Tells(s, DeleteRow(s, t, w, purpose, ok), t)
  {
  }

  lemma TellsLook(s: State, t: nat, c: Choice)
    requires t < |s.ops| && (s.ops[t].StopLooking? || s.ops[t].CountingDown? || s.ops[t].StartLooking?)
    ensures Tells(s, Advance(s, t, c), t)
  {
  }

  lemma TellsFlags(s: State, t: nat, c: Choice)
    requires t < |s.ops| && (s.ops[t].CancelPump? || s.ops[t].SwappingOn?)
    ensures Tells(s, Advance(s, t, c), t)
  {
    if s.ops[t].CancelPump? {
      TellsQuietly(s, Advance(s, t, c), t, Stopping(s.ops[t].worker, SwapRunning, s.ops[t].purpose));
    } else {
      TellsQuietly(s, Advance(s, t, c), t, Done);
    }
  }

  lemma TellsTeardown(s: State, t: nat, c: Choice)
    requires Inv(s) && t < |s.ops| && TearsDown(s.ops[t])
    ensures Tells(s, Advance(s, t, c), t)
  {
    var op := s.ops[t];
    assert OpInv(s, t);
    if op.Unregistering? {
      TellsUnregister(s, t, op.mgmt, op.tenant);
    } else if op.Stopping? {
      TellsStop(s, t, op.worker, op.stage, op.purpose);
    } else if op.DeletingRow? {
      TellsDeleteRow(s, t, op.worker, op.purpose, c.ok);
    } else if op.CancelPump? || op.SwappingOn? {
      TellsFlags(s, t, c);
    } else {
      TellsLook(s, t, c);
    }
  }

  lemma BooksMove(s: State, s': State, t: nat, created: nat)
    requires t < |s.ops| && Tells(s, s', t) && Books(s, created)
    ensures Books(s', created)
  {
    TotalUpdate(s.ops, t, s'.ops[t], Owed);
    TotalUpdate(s.ops, t, s'.ops[t], Succeeded);
    TotalUpdate(s.ops, t, s'.ops[t], Failed);
    TotalUpdate(s.ops, t, s'.ops[t], Unfinished);
  }

  lemma ProceedBooks(s: State, t: nat, c: Choice, created: nat)
    requires Inv(s) && t < |s.ops| && Books(s, created)
    ensures Books(Advance(s, t, c), created)
  {
    if Restores(s.ops[t]) {
      TellsRestore(s, t, c);
    } else if TearsDown(s.ops[t]) {
      TellsTeardown(s, t, c);
    } else {
      TellsProvision(s, t, c);
    }
    BooksMove(s, Advance(s, t, c), t, created);
  }

  /** The creations accepted since the last crash. */
  function Created(es: seq<Event>): nat {
    if es == [] then 0 else CreatedBy(Run(es[..|es| - 1]), es[|es| - 1], Created(es[..|es| - 1]))
  }

  function CreatedBy(s: State, e: Event, before: nat): nat {
    match e
    case Crash => 0
    case Create => if s.phase == Serving then before + 1 else before
    case _ => before
  }

  lemma TotalAppend(ops: seq<Op>, op: Op, k: Count)
    ensures Total(ops + [op], k) == Total(ops, k) + Score(op, k)
  {
    assert (ops + [op])[..|ops|] == ops;
  }

  predicate IsRequest(op: Op) {
    op.Onboarding? || op.Unregistering? || op.StopLooking? || op.StartLooking? || op.RestoreNext?
  }

  lemma RequestScores(op: Op)
    requires IsRequest(op)
    ensures Score(op, Owed) == 0 && Score(op, Succeeded) == 0 && Score(op, Failed) == 0
    ensures Score(op, Unfinished) == if op.Onboarding? then 1 else 0
  {
  }

  lemma SpawnBooks(s: State, op: Op, created: nat)
    requires Books(s, created)
    requires IsRequest(op)
    ensures Books(Spawn(s, op), if op.Onboarding? then created + 1 else created)
  {
    RequestScores(op);
    TotalAppend(s.ops, op, Owed);
    TotalAppend(s.ops, op, Succeeded);
    TotalAppend(s.ops, op, Failed);
    TotalAppend(s.ops, op, Unfinished);
  }

  lemma SameBooks(s: State, s': State, created: nat)
    requires Books(s, created) && s'.ops == s.ops && s'.workers == s.workers
    requires s'.gauge == s.gauge && s'.failedDeletes == s.failedDeletes
    requires s'.successes == s.successes && s'.failures == s.failures
    ensures Books(s', created)
  {
  }

  lemma CreateBooks(s: State, created: nat)
    requires Books(s, created)
    ensures Books(Step(s, Create), CreatedBy(s, Create, created))
  {
    if s.phase == Serving {
      SpawnBooks(s, Onboarding, created);
    }
  }

  lemma StopBooks(s: State, e: Event, created: nat)
    requires Books(s, created) && (e.Delete? || e.Decommission? || e.Stop? || e.Start?)
    ensures Books(Step(s, e), created)
  {
    if e.Decommission? {
      SpawnBooks(s, Unregistering(e.mgmt, Some(e.tenant)), created);
    } else if s.phase == Serving {
      SpawnBooks(s, if e.Delete? then Unregistering(e.mgmt, None) else if e.Stop? then StopLooking(e.mgmt)
                    else StartLooking(e.mgmt), created);
    }
  }

  lemma RestoreBooks(s: State, listing: seq<(nat, Ident)>, created: nat)
    requires Books(s, created)
    ensures Books(Step(s, RestoreAll(listing)), created)
  {
    if s.phase == Fresh && Lists(s, listing) {
      SpawnBooks(s, RestoreNext(listing), created);
      SameBooks(Spawn(s, RestoreNext(listing)), Step(s, RestoreAll(listing)), created);
    }
  }

  lemma RequestBooks(s: State, e: Event, created: nat)
    requires !e.Proceed? && Books(s, created)
    ensures Books(Step(s, e), CreatedBy(s, e, created))
  {
    if e.Create? {
      CreateBooks(s, created);
    } else if e.RestoreAll? {
      RestoreBooks(s, e.listing, created);
    } else if e.Crash? {
      assert Step(s, e).ops == [];
    } else if e.OpenApi? || e.PumpExits? {
      SameBooks(s, Step(s, e), created);
    } else {
      StopBooks(s, e, created);
    }
  }

  lemma StepBooks(s: State, e: Event, created: nat)
    requires Inv(s) && Books(s, created)
    ensures Books(Step(s, e), CreatedBy(s, e, created))
  {
    if !e.Proceed? {
      RequestBooks(s, e, created);
    } else if e.op < |s.ops| {
      ProceedBooks(s, e.op, e.choice, created);
    }
  }

  /** In every run the gauge is the registered workers, the failed deletions and what
      the threads in flight still owe it; the two provisioning counters are the sagas
      that ended well and badly, and with those still running they are all creations
      accepted. */
  lemma {:induction false} RunBooks(es: seq<Event>)
    ensures GaugeInv(Run(es)) && CountersInv(Run(es), Created(es))
  {
    if es != [] {
      var before := es[..|es| - 1];
      RunBooks(before);
      RunKeeps(before);
      StepBooks(Run(before), es[|es| - 1], Created(before));
    }
  }

  /** With no operation in flight the gauge is the number of registered workers plus
      the deletions whose store call failed: exact without such a failure, and
      never too low. */
  lemma GaugeCountsWorkers(es: seq<Event>)
    requires Quiet(Run(es))
    ensures Run(es).gauge == |Run(es).workers| + Run(es).failedDeletes
  {
    RunBooks(es);
    TotalQuiet(Run(es).ops, Owed);
  }

  /** With no operation in flight, successes and errors add up to the creations. */
  lemma EverySagaCounted(es: seq<Event>)
    requires Quiet(Run(es))
    ensures Run(es).successes + Run(es).failures == Created(es)
  {
    RunBooks(es);
    TotalQuiet(Run(es).ops, Unfinished);
  }
}
