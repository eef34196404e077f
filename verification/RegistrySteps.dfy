/** Each atomic step of the registry keeps the invariant. */
module RegistrySteps {
  import opened Domain
  import opened RegistryModel
  import opened RegistryProofs

  predicate InClose(op: Op) {
    op.Stopping? && Closing(op.stage)
  }

  /** Rows, index and the workers' identities are as they were. */
  lemma IndexKept(s: State, s': State)
    requires MapInv(s) && StoreInv(s)
    requires s'.rows == s.rows && s'.nextRow == s.nextRow && s'.workers == s.workers && |s.pool| <= |s'.pool|
    requires forall w :: 0 <= w < |s.pool| ==>
      s'.pool[w].row == s.pool[w].row && s'.pool[w].id == s.pool[w].id && s'.pool[w].life == s.pool[w].life
    ensures MapInv(s') && StoreInv(s')
  {
    forall m | m in s'.workers ensures Indexed(s', m) {
      assert Indexed(s, m);
    }
  }

  /** `s'` is `s` with thread t moved on: it neither held a connection nor does it
      start or end a close. */
  lemma Moved(s: State, t: nat, op: Op)
    requires Inv(s) && t < |s.ops|
    requires s.phase == Fresh ==> op.Done?
    requires !HoldsAny(s.ops[t]) && !InClose(s.ops[t]) && !InClose(op)
    requires OpInv(At(s, t, op), t)
    ensures Inv(At(s, t, op))
  {
    var s' := At(s, t, op);
    OtherOps(s, s', t);
    forall w | 0 <= w < |s'.pool| ensures WorkerInv(s', w) {
      assert WorkerInv(s, w);
    }
    forall c | 0 <= c < |s'.conns| ensures ConnInv(s', c) {
      assert ConnInv(s, c);
    }
    IndexKept(s, s');
  }

  /** The counters are no part of the invariant. */
  lemma Counted(s: State, s': State)
    requires Inv(s)
    requires s' == s.(gauge := s'.gauge, failedDeletes := s'.failedDeletes, successes := s'.successes, failures := s'.failures)
    ensures Inv(s')
  {
    forall t | 0 <= t < |s'.ops| ensures OpInv(s', t) {
      assert OpInv(s, t);
    }
    forall w | 0 <= w < |s'.pool| ensures WorkerInv(s', w) {
      assert WorkerInv(s, w);
    }
    forall c | 0 <= c < |s'.conns| ensures ConnInv(s', c) {
      assert ConnInv(s, c);
    }
    IndexKept(s, s');
  }

  /** Thread t changes rows that no worker and no other thread answers for. */
  lemma RowsChanged(s: State, s': State, t: nat)
    requires Inv(s) && t < |s.ops| && s.phase != Fresh
    requires s' == s.(rows := s'.rows, nextRow := s'.nextRow)
    requires SameRows(s, s', t) && StoreInv(s') && OpInv(s', t)
    requires forall r :: r in s.rows && s.rows[r].owner.OfWorker? ==> r in s'.rows && s'.rows[r] == s.rows[r]
    ensures Inv(s')
  {
    OtherOps(s, s', t);
    forall w | 0 <= w < |s'.pool| ensures WorkerInv(s', w) {
      assert WorkerInv(s, w);
    }
    forall c | 0 <= c < |s'.conns| ensures ConnInv(s', c) {
      assert ConnInv(s, c);
    }
    forall m | m in s'.workers ensures Indexed(s', m) {
      assert Indexed(s, m);
    }
  }

  lemma FailKeeps(s: State, t: nat)
    requires Inv(s) && t < |s.ops| && s.phase != Fresh
    requires !HoldsAny(s.ops[t]) && !InClose(s.ops[t])
    ensures Inv(FailSaga(s, t))
  {
    Moved(s, t, SagaDone(false));
    Counted(At(s, t, SagaDone(false)), FailSaga(s, t));
  }

  /** A thread that is past its last use of a row may drop or orphan it. */
  lemma RowGivenUp(s: State, t: nat, row: nat, drop: bool)
    requires Inv(s) && t < |s.ops| && s.phase != Fresh
    requires s.ops[t].SagaDone? || s.ops[t].CountingDown? || s.ops[t].Done?
    requires row in s.rows ==> s.rows[row].owner == OfOp(t)
    ensures Inv(if drop then s.(rows := s.rows - {row}) else SetOwner(s, row, Orphan))
  {
    RowsChanged(s, if drop then s.(rows := s.rows - {row}) else SetOwner(s, row, Orphan), t);
  }

  // ----- provisioning -----

  lemma PersistKeeps(s: State, t: nat, id: Ident, ok: bool)
    requires Inv(s) && t < |s.ops| && s.ops[t] == Persisting(id)
    ensures Inv(Persist(s, t, id, ok))
  {
    if !ok || Stored(s, id.mgmt) {
      FailKeeps(s, t);
    } else {
      var s1 := s.(rows := s.rows[s.nextRow := Row(id, true, OfOp(t))], nextRow := s.nextRow + 1);
      RowsChanged(s, s1, t);
      Moved(s1, t, Connecting(s.nextRow, id));
    }
  }

  lemma UndoKeeps(s: State, t: nat, row: nat, ok: bool)
    requires Inv(s) && t < |s.ops| && s.ops[t] == Undoing(row)
    ensures Inv(Undo(s, t, row, ok))
  {
    assert OpInv(s, t);
    FailKeeps(s, t);
    var s1 := FailSaga(s, t);
    RowGivenUp(s1, t, row, ok);
    assert Undo(s, t, row, ok) == if ok then s1.(rows := s1.rows - {row}) else SetOwner(s1, row, Orphan);
  }

  /** Thread t moves on and opens a connection, or moves on with the one it holds. */
  lemma Connected(s: State, s': State, t: nat, op: Op, isNew: bool)
    requires Inv(s) && t < |s.ops| && s.phase != Fresh && HoldsAny(op) && !InClose(s.ops[t])
    requires if isNew then !HoldsAny(s.ops[t]) && op.conn == |s.conns|
             else HoldsAny(s.ops[t]) && op.conn == s.ops[t].conn
    requires s' == At(s.(conns := if isNew then s.conns + [Conn(OfOp(t), 0, 0, 0)] else s.conns), t, op)
    requires OpInv(s', t)
    ensures Inv(s')
  {
    OtherOps(s, s', t);
    forall w | 0 <= w < |s'.pool| ensures WorkerInv(s', w) {
      assert WorkerInv(s, w);
    }
    forall c | 0 <= c < |s'.conns| ensures ConnInv(s', c) {
      assert c < |s.conns| ==> ConnInv(s, c);
    }
    IndexKept(s, s');
  }

  lemma ConnectKeeps(s: State, t: nat, row: nat, id: Ident, ok: bool)
    requires Inv(s) && t < |s.ops| && s.ops[t] == Connecting(row, id)
    ensures Inv(Connect(s, t, row, id, ok))
  {
    assert OpInv(s, t);
    if ok {
      Connected(s, Connect(s, t, row, id, true), t, Listing(row, id, |s.conns|), true);
    } else {
      Moved(s, t, Undoing(row));
    }
  }

  lemma ListKeeps(s: State, t: nat, row: nat, id: Ident, conn: nat, ok: bool)
    requires Inv(s) && t < |s.ops| && s.ops[t] == Listing(row, id, conn)
    ensures Inv(List(s, t, row, id, conn, ok))
  {
    assert OpInv(s, t);
    Connected(s, List(s, t, row, id, conn, ok), t, List(s, t, row, id, conn, ok).ops[t], false);
  }

  lemma CompensateConns(s: State, t: nat, c: Choice)
    requires Inv(s) && t < |s.ops| && (s.ops[t].CloseSub? || s.ops[t].CloseNc?)
    ensures WorkersInv(Advance(s, t, c)) && ConnsInv(Advance(s, t, c))
  {
    assert OpInv(s, t);
    var s' := Advance(s, t, c);
    forall w | 0 <= w < |s'.pool| ensures WorkerInv(s', w) {
      assert WorkerInv(s, w);
    }
    forall k | 0 <= k < |s'.conns| ensures ConnInv(s', k) {
      assert ConnInv(s, k);
    }
  }

  /** A compensating thread closes the subscription, then the connection. */
  lemma CompensateKeeps(s: State, t: nat, c: Choice)
    requires Inv(s) && t < |s.ops| && (s.ops[t].CloseSub? || s.ops[t].CloseNc?)
    ensures Inv(Advance(s, t, c))
  {
    var s' := Advance(s, t, c);
    assert OpInv(s, t);
    OtherOps(s, s', t);
    CompensateConns(s, t, c);
    IndexKept(s, s');
  }

  // ----- starting a worker -----

  /** The connection passes from the thread to the worker it launches. */
  lemma LaunchKeeps(s: State, t: nat, row: nat, id: Ident, conn: nat, next: Next)
    requires Inv(s) && t < |s.ops| && s.ops[t] == Launching(row, id, conn, next)
    ensures Inv(Launch(s, t, row, id, conn, next))
  {
    assert OpInv(s, t);
    var s' := Launch(s, t, row, id, conn, next);
    OtherOps(s, s', t);
    forall w | 0 <= w < |s'.pool| ensures WorkerInv(s', w) {
      assert w < |s.pool| ==> WorkerInv(s, w);
    }
    forall k | 0 <= k < |s'.conns| ensures ConnInv(s', k) {
      assert ConnInv(s, k);
    }
    IndexKept(s, s');
  }

  /** No registered worker has the management ID of a row that a thread holds. */
  lemma NotOverwritten(s: State, t: nat, row: nat, id: Ident)
    requires Inv(s) && HasRow(s, t, row, id)
    ensures id.mgmt !in s.workers
  {
    assert id.mgmt in s.workers ==> Indexed(s, id.mgmt);
  }

  lemma RegisterIndex(s: State, t: nat, w: nat, next: Next)
    requires Inv(s) && t < |s.ops| && s.ops[t] == Registering(w, next)
    ensures MapInv(Register(s, t, w, next)) && StoreInv(Register(s, t, w, next))
  {
    assert OpInv(s, t);
    NotOverwritten(s, t, s.pool[w].row, s.pool[w].id);
    var s' := Register(s, t, w, next);
    forall m | m in s'.workers ensures Indexed(s', m) {
      assert m in s.workers ==> Indexed(s, m);
    }
  }

  lemma RegisterWorkers(s: State, t: nat, w: nat, next: Next)
    requires Inv(s) && t < |s.ops| && s.ops[t] == Registering(w, next)
    ensures WorkersInv(Register(s, t, w, next)) && ConnsInv(Register(s, t, w, next))
  {
    assert OpInv(s, t);
    NotOverwritten(s, t, s.pool[w].row, s.pool[w].id);
    var s' := Register(s, t, w, next);
    forall v | 0 <= v < |s'.pool| ensures WorkerInv(s', v) {
      assert WorkerInv(s, v);
    }
    forall k | 0 <= k < |s'.conns| ensures ConnInv(s', k) {
      assert ConnInv(s, k);
    }
  }

  lemma RegisterKeeps(s: State, t: nat, w: nat, next: Next)
    requires Inv(s) && t < |s.ops| && s.ops[t] == Registering(w, next)
    ensures Inv(Register(s, t, w, next))
  {
    assert OpInv(s, t);
    RegisterIndex(s, t, w, next);
    var s' := Register(s, t, w, next);
    OtherOps(s, s', t);
    RegisterWorkers(s, t, w, next);
  }

  lemma MarkKeeps(s: State, t: nat, next: Next)
    requires Inv(s) && t < |s.ops| && s.ops[t] == Marking(next)
    ensures Inv(Mark(s, t, next))
  {
    assert OpInv(s, t);
    match next {
      case Finish =>
        Moved(s, t, SagaDone(true));
        Counted(At(s, t, SagaDone(true)), Mark(s, t, next));
      case Resume(todo) =>
        Moved(s, t, RestoreNext(todo));
    }
  }

  // ----- restoration -----

  lemma RestoreStepKeeps(s: State, t: nat, todo: seq<(nat, Ident)>)
    requires Inv(s) && t < |s.ops| && s.ops[t] == RestoreNext(todo)
    ensures Inv(RestoreStep(s, t, todo))
  {
    assert OpInv(s, t);
    if todo == [] {
      Moved(s, t, Done);
    } else {
      assert HasRow(s, t, todo[0].0, todo[0].1);
      forall i | 0 <= i < |todo[1..]| ensures HasRow(s, t, todo[1..][i].0, todo[1..][i].1) {
        assert HasRow(s, t, todo[i + 1].0, todo[i + 1].1);
      }
      Moved(s, t, RestoreListing(todo[0].0, todo[0].1, todo[1..]));
    }
  }

  lemma SkipRowKeeps(s: State, t: nat, row: nat, todo: seq<(nat, Ident)>)
    requires Inv(s) && t < |s.ops| && (s.ops[t].RestoreListing? || s.ops[t].RestoreConnecting?)
    requires s.ops[t].row == row && s.ops[t].todo == todo
    ensures Inv(SkipRow(s, t, row, todo))
  {
    assert OpInv(s, t);
    var s1 := At(s, t, RestoreNext(todo));
    Moved(s, t, RestoreNext(todo));
    var s2 := SetOwner(s1, row, Orphan);
    forall i | 0 <= i < |todo| ensures HasRow(s2, t, todo[i].0, todo[i].1) {
      assert HasRow(s, t, todo[i].0, todo[i].1);
    }
    RowsChanged(s1, s2, t);
  }

  lemma RestoreConnectKeeps(s: State, t: nat, row: nat, id: Ident, todo: seq<(nat, Ident)>, ok: bool)
    requires Inv(s) && t < |s.ops| && s.ops[t] == RestoreConnecting(row, id, todo)
    ensures Inv(RestoreConnect(s, t, row, id, todo, ok))
  {
    assert OpInv(s, t);
    if ok {
      Connected(s, RestoreConnect(s, t, row, id, todo, true), t, Launching(row, id, |s.conns|, Resume(todo)), true);
    } else {
      SkipRowKeeps(s, t, row, todo);
    }
  }

  // ----- teardown, stop and start -----

  lemma UnregisterOps(s: State, t: nat, mgmt: string, tenant: Option<string>)
    requires Inv(s) && t < |s.ops| && s.ops[t] == Unregistering(mgmt, tenant)
    requires mgmt in s.workers && (tenant.None? || Of(s, s.workers[mgmt]).id.tenant == tenant.value)
    ensures OpsInv(Unregister(s, t, mgmt, tenant))
  {
    assert Indexed(s, mgmt);
    OtherOps(s, Unregister(s, t, mgmt, tenant), t);
  }

  lemma UnregisterWorkers(s: State, t: nat, mgmt: string, tenant: Option<string>)
    requires Inv(s) && t < |s.ops| && s.ops[t] == Unregistering(mgmt, tenant)
    requires mgmt in s.workers && (tenant.None? || Of(s, s.workers[mgmt]).id.tenant == tenant.value)
    ensures WorkersInv(Unregister(s, t, mgmt, tenant)) && ConnsInv(Unregister(s, t, mgmt, tenant))
  {
    var s' := Unregister(s, t, mgmt, tenant);
    assert Indexed(s, mgmt);
    forall v | 0 <= v < |s'.pool| ensures WorkerInv(s', v) {
      assert WorkerInv(s, v);
    }
    forall k | 0 <= k < |s'.conns| ensures ConnInv(s', k) {
      assert ConnInv(s, k);
    }
  }

  lemma UnregisterIndex(s: State, t: nat, mgmt: string, tenant: Option<string>)
    requires StoreInv(s) && MapInv(s) && t < |s.ops|
    requires mgmt in s.workers && (tenant.None? || Of(s, s.workers[mgmt]).id.tenant == tenant.value)
    ensures MapInv(Unregister(s, t, mgmt, tenant)) && StoreInv(Unregister(s, t, mgmt, tenant))
  {
    var s' := Unregister(s, t, mgmt, tenant);
    assert Indexed(s, mgmt);
    forall m | m in s'.workers ensures Indexed(s', m) {
      assert Indexed(s, m);
    }
  }

  lemma UnregisterKeeps(s: State, t: nat, mgmt: string, tenant: Option<string>)
    requires Inv(s) && t < |s.ops| && s.ops[t] == Unregistering(mgmt, tenant)
    ensures Inv(Unregister(s, t, mgmt, tenant))
  {
    if mgmt in s.workers && (tenant.None? || Of(s, s.workers[mgmt]).id.tenant == tenant.value) {
      UnregisterOps(s, t, mgmt, tenant);
      UnregisterWorkers(s, t, mgmt, tenant);
      UnregisterIndex(s, t, mgmt, tenant);
    } else {
      Moved(s, t, Done);
    }
  }

  /** Whether a loop or a pump is told to run is no part of the invariant. */
  lemma FlagsChanged(s: State, w: nat, running: bool, pumpCancelled: bool)
    requires Inv(s) && w < |s.pool|
    ensures Inv(SetWorker(s, w, s.pool[w].(running := running, pumpCancelled := pumpCancelled)))
  {
    var s' := SetWorker(s, w, s.pool[w].(running := running, pumpCancelled := pumpCancelled));
    forall t | 0 <= t < |s'.ops| ensures OpInv(s', t) {
      assert OpInv(s, t);
    }
    forall v | 0 <= v < |s'.pool| ensures WorkerInv(s', v) {
      assert WorkerInv(s, v);
    }
    forall k | 0 <= k < |s'.conns| ensures ConnInv(s', k) {
      assert ConnInv(s, k);
    }
    IndexKept(s, s');
  }

  lemma AfterStopKeeps(s: State, t: nat, w: nat, purpose: Purpose)
    requires Inv(s) && t < |s.ops| && s.phase != Fresh
    requires !HoldsAny(s.ops[t]) && !InClose(s.ops[t]) && Leaving(s, t, w, purpose)
    ensures Inv(AfterStop(s, t, w, purpose))
  {
    Moved(s, t, if purpose == ForStop then Done else DeletingRow(w, purpose));
  }

  /** The first thread to claim the close is the only one that runs the closers. */
  lemma ClaimKeeps(s: State, t: nat, w: nat, purpose: Purpose)
    requires Inv(s) && t < |s.ops| && s.ops[t] == Stopping(w, ClaimClose, purpose)
    requires !Of(s, w).publisherClosed
    ensures Inv(StopStep(s, t, w, ClaimClose, purpose))
  {
    assert OpInv(s, t) && WorkerInv(s, w);
    var s' := StopStep(s, t, w, ClaimClose, purpose);
    OtherOps(s, s', t);
    forall v | 0 <= v < |s'.pool| ensures WorkerInv(s', v) {
      assert WorkerInv(s, v);
    }
    forall k | 0 <= k < |s'.conns| ensures ConnInv(s', k) {
      assert ConnInv(s, k);
    }
    IndexKept(s, s');
  }

  lemma CloseWorkers(s: State, t: nat, w: nat, stage: StopStage, purpose: Purpose)
    requires Inv(s) && t < |s.ops| && s.ops[t] == Stopping(w, stage, purpose) && Closing(stage)
    ensures WorkersInv(StopStep(s, t, w, stage, purpose)) && ConnsInv(StopStep(s, t, w, stage, purpose))
  {
    assert OpInv(s, t) && WorkerInv(s, w);
    var s' := StopStep(s, t, w, stage, purpose);
    forall v | 0 <= v < |s'.pool| ensures WorkerInv(s', v) {
      assert WorkerInv(s, v);
    }
    forall k | 0 <= k < |s'.conns| ensures ConnInv(s', k) {
      assert ConnInv(s, k);
    }
  }

  lemma CloseKeeps(s: State, t: nat, w: nat, stage: StopStage, purpose: Purpose)
    requires Inv(s) && t < |s.ops| && s.ops[t] == Stopping(w, stage, purpose) && Closing(stage)
    ensures Inv(StopStep(s, t, w, stage, purpose))
  {
    assert OpInv(s, t) && WorkerInv(s, w);
    var s' := StopStep(s, t, w, stage, purpose);
    OtherOps(s, s', t);
    CloseWorkers(s, t, w, stage, purpose);
    IndexKept(s, s');
  }

  lemma StopStepKeeps(s: State, t: nat, w: nat, stage: StopStage, purpose: Purpose)
    requires Inv(s) && t < |s.ops| && s.ops[t] == Stopping(w, stage, purpose)
    ensures Inv(StopStep(s, t, w, stage, purpose))
  {
    assert OpInv(s, t);
    match stage {
      case SwapRunning =>
        if s.pool[w].running {
          FlagsChanged(s, w, false, s.pool[w].pumpCancelled);
          Moved(SetWorker(s, w, s.pool[w].(running := false)), t, Stopping(w, AwaitLoop, purpose));
        } else {
          AfterStopKeeps(s, t, w, purpose);
        }
      case AwaitLoop => Moved(s, t, Stopping(w, ClaimClose, purpose));
      case ClaimClose =>
        if s.pool[w].publisherClosed {
          AfterStopKeeps(s, t, w, purpose);
        } else {
          ClaimKeeps(s, t, w, purpose);
        }
      case ClosePublisher => CloseKeeps(s, t, w, stage, purpose);
      case CloseConnection => CloseKeeps(s, t, w, stage, purpose);
    }
  }

  lemma DeleteRowKeeps(s: State, t: nat, w: nat, purpose: Purpose, ok: bool)
    requires Inv(s) && t < |s.ops| && s.ops[t] == DeletingRow(w, purpose)
    ensures Inv(DeleteRow(s, t, w, purpose, ok))
  {
    assert OpInv(s, t);
    var op := if ok || purpose != ForDelete then CountingDown else Done;
    Moved(s, t, op);
    var s1 := At(s, t, op);
    RowGivenUp(s1, t, s.pool[w].row, ok);
    if !ok && purpose == ForDelete {
      Counted(SetOwner(s1, s.pool[w].row, Orphan), DeleteRow(s, t, w, purpose, ok));
    }
  }

  lemma CancelKeeps(s: State, t: nat, w: nat, purpose: Purpose, c: Choice)
    requires Inv(s) && t < |s.ops| && s.ops[t] == CancelPump(w, purpose)
    ensures Inv(Advance(s, t, c))
  {
    assert OpInv(s, t);
    FlagsChanged(s, w, s.pool[w].running, true);
    Moved(SetWorker(s, w, s.pool[w].(pumpCancelled := true)), t, Stopping(w, SwapRunning, purpose));
  }

  lemma SwapOnKeeps(s: State, t: nat, w: nat, c: Choice)
    requires Inv(s) && t < |s.ops| && s.ops[t] == SwappingOn(w)
    ensures Inv(Advance(s, t, c))
  {
    assert OpInv(s, t);
    FlagsChanged(s, w, true, s.pool[w].pumpCancelled);
    Moved(SetWorker(s, w, s.pool[w].(running := true)), t, Done);
  }

  lemma StopLookKeeps(s: State, t: nat, mgmt: string, c: Choice)
    requires Inv(s) && t < |s.ops| && s.ops[t] == StopLooking(mgmt)
    ensures Inv(Advance(s, t, c))
  {
    assert mgmt in s.workers ==> Indexed(s, mgmt);
    Moved(s, t, if mgmt in s.workers then CancelPump(s.workers[mgmt], ForStop) else Done);
  }

  lemma StartLookKeeps(s: State, t: nat, mgmt: string, c: Choice)
    requires Inv(s) && t < |s.ops| && s.ops[t] == StartLooking(mgmt)
    ensures Inv(Advance(s, t, c))
  {
    assert mgmt in s.workers ==> Indexed(s, mgmt);
    Moved(s, t, if mgmt in s.workers && !Of(s, s.workers[mgmt]).running then SwappingOn(s.workers[mgmt]) else Done);
  }

  // ----- every step -----

  lemma ProvisionKeeps(s: State, t: nat, c: Choice)
    requires Inv(s) && t < |s.ops| && !Restores(s.ops[t]) && !TearsDown(s.ops[t])
    ensures Inv(Advance(s, t, c))
  {
    assert OpInv(s, t);
    match s.ops[t] {
      case Onboarding =>
        if c.ok {
          Moved(s, t, Persisting(c.id));
        } else {
          FailKeeps(s, t);
        }
      case Persisting(id) => PersistKeeps(s, t, id, c.ok);
      case Connecting(row, id) => ConnectKeeps(s, t, row, id, c.ok);
      case Listing(row, id, conn) => ListKeeps(s, t, row, id, conn, c.ok);
      case CloseSub(_, _) => CompensateKeeps(s, t, c);
      case CloseNc(_, _) => CompensateKeeps(s, t, c);
      case Undoing(row) => UndoKeeps(s, t, row, c.ok);
      case Launching(row, id, conn, next) => LaunchKeeps(s, t, row, id, conn, next);
      case Registering(w, next) => RegisterKeeps(s, t, w, next);
      case Counting(next) =>
        Moved(s, t, Marking(next));
        Counted(At(s, t, Marking(next)), Advance(s, t, c));
      case Marking(next) => MarkKeeps(s, t, next);
      case SagaDone(_) =>
      case Done =>
    }
  }

  predicate Restores(op: Op) {
    op.RestoreNext? || op.RestoreListing? || op.RestoreConnecting?
  }

  lemma RestoreKeeps(s: State, t: nat, c: Choice)
    requires Inv(s) && t < |s.ops| && Restores(s.ops[t])
    ensures Inv(Advance(s, t, c))
  {
    assert OpInv(s, t);
    match s.ops[t] {
      case RestoreNext(todo) => RestoreStepKeeps(s, t, todo);
      case RestoreListing(row, id, todo) =>
        if c.ok {
          Moved(s, t, RestoreConnecting(row, id, todo));
        } else {
          SkipRowKeeps(s, t, row, todo);
        }
      case RestoreConnecting(row, id, todo) => RestoreConnectKeeps(s, t, row, id, todo, c.ok);
    }
  }

  predicate TearsDown(op: Op) {
    || op.Unregistering? || op.StopLooking? || op.CancelPump? || op.Stopping?
    || op.DeletingRow? || op.CountingDown? || op.StartLooking? || op.SwappingOn?
  }

  lemma TeardownKeeps(s: State, t: nat, c: Choice)
    requires Inv(s) && t < |s.ops| && TearsDown(s.ops[t])
    ensures Inv(Advance(s, t, c))
  {
    match s.ops[t] {
      case Unregistering(mgmt, tenant) => UnregisterKeeps(s, t, mgmt, tenant);
      case StopLooking(mgmt) => StopLookKeeps(s, t, mgmt, c);
      case CancelPump(w, purpose) => CancelKeeps(s, t, w, purpose, c);
      case Stopping(w, stage, purpose) => StopStepKeeps(s, t, w, stage, purpose);
      case DeletingRow(w, purpose) => DeleteRowKeeps(s, t, w, purpose, c.ok);
      case CountingDown =>
        Moved(s, t, Done);
        Counted(At(s, t, Done), Advance(s, t, c));
      case StartLooking(mgmt) => StartLookKeeps(s, t, mgmt, c);
      case SwappingOn(w) => SwapOnKeeps(s, t, w, c);
    }
  }

  lemma ProceedKeeps(s: State, t: nat, c: Choice)
    requires Inv(s) && t < |s.ops|
    ensures Inv(Advance(s, t, c))
  {
    if Restores(s.ops[t]) {
      RestoreKeeps(s, t, c);
    } else if TearsDown(s.ops[t]) {
      TeardownKeeps(s, t, c);
    } else {
      ProvisionKeeps(s, t, c);
    }
  }

  lemma SpawnKeeps(s: State, op: Op)
    requires Inv(s)
    requires op.Unregistering? || (s.phase != Fresh && (op.Onboarding? || op.StopLooking? || op.StartLooking?))
    ensures Inv(Spawn(s, op))
  {
    var s' := Spawn(s, op);
    forall t | 0 <= t < |s'.ops| ensures OpInv(s', t) {
      assert t < |s.ops| ==> OpInv(s, t);
    }
    forall v | 0 <= v < |s'.pool| ensures WorkerInv(s', v) {
      assert WorkerInv(s, v);
    }
    forall k | 0 <= k < |s'.conns| ensures ConnInv(s', k) {
      assert ConnInv(s, k);
    }
    IndexKept(s, s');
  }

  lemma PumpExitConns(s: State, w: nat)
    requires Inv(s) && w < |s.pool|
    ensures WorkersInv(PumpExit(s, w)) && ConnsInv(PumpExit(s, w))
  {
    assert WorkerInv(s, w);
    var s' := PumpExit(s, w);
    forall v | 0 <= v < |s'.pool| ensures WorkerInv(s', v) {
      assert WorkerInv(s, v);
    }
    forall k | 0 <= k < |s'.conns| ensures ConnInv(s', k) {
      assert ConnInv(s, k);
    }
  }

  lemma PumpExitOps(s: State, w: nat)
    requires WorkersInv(s) && OpsInv(s) && w < |s.pool|
    ensures OpsInv(PumpExit(s, w))
  {
    var s' := PumpExit(s, w);
    assert WorkerInv(s, w);
    forall t | 0 <= t < |s'.ops| ensures OpInv(s', t) {
      assert OpInv(s, t);
    }
  }

  lemma PumpExitKeeps(s: State, w: nat)
    requires Inv(s) && w < |s.pool|
    ensures Inv(PumpExit(s, w))
  {
    PumpExitOps(s, w);
    PumpExitConns(s, w);
    IndexKept(s, PumpExit(s, w));
  }

  lemma RestoreAllKeeps(s: State, listing: seq<(nat, Ident)>)
    requires Inv(s)
    ensures Inv(Step(s, RestoreAll(listing)))
  {
    var s' := Step(s, RestoreAll(listing));
    if s.phase == Fresh && Lists(s, listing) {
      forall t | 0 <= t < |s'.ops| ensures OpInv(s', t) {
        if t == |s.ops| {
          assert forall i :: 0 <= i < |listing| ==> HasRow(s', t, listing[i].0, listing[i].1);
        }
      }
    }
  }

  lemma StepKeeps(s: State, e: Event)
    requires Inv(s)
    ensures Inv(Step(s, e))
  {
    match e {
      case Create => if s.phase == Serving { SpawnKeeps(s, Onboarding); }
      case Delete(mgmt) => if s.phase == Serving { SpawnKeeps(s, Unregistering(mgmt, None)); }
      case Decommission(mgmt, tenant) => SpawnKeeps(s, Unregistering(mgmt, Some(tenant)));
      case Stop(mgmt) => if s.phase == Serving { SpawnKeeps(s, StopLooking(mgmt)); }
      case Start(mgmt) => if s.phase == Serving { SpawnKeeps(s, StartLooking(mgmt)); }
      case RestoreAll(listing) => RestoreAllKeeps(s, listing);
      case OpenApi => OpenKeeps(s);
      case Proceed(t, c) => if t < |s.ops| { ProceedKeeps(s, t, c); }
      case PumpExits(w) => if w < |s.pool| { PumpExitKeeps(s, w); }
      case Crash =>
    }
  }

  lemma OpenKeeps(s: State)
    requires Inv(s)
    ensures Inv(s.(phase := Serving))
  {
    var s' := s.(phase := Serving);
    forall t | 0 <= t < |s'.ops| ensures OpInv(s', t) {
      assert OpInv(s, t);
    }
    forall v | 0 <= v < |s'.pool| ensures WorkerInv(s', v) {
      assert WorkerInv(s, v);
    }
    forall k | 0 <= k < |s'.conns| ensures ConnInv(s', k) {
      assert ConnInv(s, k);
    }
    IndexKept(s, s');
  }

  /** Every reachable state keeps the invariant, under every pattern of failures,
      crashes and interleavings. */
  lemma {:induction false} RunKeeps(es: seq<Event>)
    ensures Inv(Run(es))
  {
    if es != [] {
      RunKeeps(es[..|es| - 1]);
      StepKeeps(Run(es[..|es| - 1]), es[|es| - 1]);
    }
  }
}
