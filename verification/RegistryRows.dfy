/** The other direction of the index: every row of the store answers to a registered
    worker, to a thread that is still at work on it, or was given up on a failure. */
module RegistryRows {
  import opened Domain
  import opened RegistryModel
  import opened RegistryProofs
  import opened RegistrySteps
  import opened RegistryResults

  ghost predicate Has(todo: seq<(nat, Ident)>, row: nat) {
    exists i :: 0 <= i < |todo| && todo[i].0 == row
  }

  ghost predicate NextHas(next: Next, row: nat) {
    next.Resume? && Has(next.todo, row)
  }

  ghost predicate RowOfWorker(s: State, w: nat, row: nat) {
    w < |s.pool| && s.pool[w].row == row
  }

  /** The rows a thread still has to deal with at its current step. */
  ghost predicate HoldsRow(s: State, op: Op, row: nat) {
    match op
    case Connecting(r, _) => r == row
    case Listing(r, _, _) => r == row
    case CloseSub(r, _) => r == row
    case CloseNc(r, _) => r == row
    case Undoing(r) => r == row
    case Launching(r, _, _, next) => r == row || NextHas(next, row)
    case Registering(w, next) => RowOfWorker(s, w, row) || NextHas(next, row)
    case Counting(next) => NextHas(next, row)
    case Marking(next) => NextHas(next, row)
    case RestoreNext(todo) => Has(todo, row)
    case RestoreListing(r, _, todo) => r == row || Has(todo, row)
    case RestoreConnecting(r, _, todo) => r == row || Has(todo, row)
    case CancelPump(w, purpose) => purpose != ForStop && RowOfWorker(s, w, row)
    case Stopping(w, _, purpose) => purpose != ForStop && RowOfWorker(s, w, row)
    case DeletingRow(w, purpose) => purpose != ForStop && RowOfWorker(s, w, row)
    case _ => false
  }

  ghost predicate RowInv(s: State, row: nat)
    requires row in s.rows
  {
    match s.rows[row].owner
    case Orphan => true
    case OfOp(t) => t < |s.ops| && HoldsRow(s, s.ops[t], row)
    case OfWorker(w) => RowOfWorker(s, w, row) && s.pool[w].life == Registered
  }

  ghost predicate RowsInv(s: State) {
    forall r :: r in s.rows ==> RowInv(s, r)
  }

  // ----- one step of one thread -----

  /** The other threads' rows, and the workers'. */
  ghost predicate OthersRows(s: State, s': State, t: nat) {
    && |s.pool| <= |s'.pool|
    && (forall w :: 0 <= w < |s.pool| ==> s'.pool[w].row == s.pool[w].row)
    && (forall r :: r in s'.rows && s'.rows[r].owner.OfOp? && s'.rows[r].owner.op != t ==>
          r in s.rows && s.rows[r].owner == s'.rows[r].owner)
    && (forall r :: r in s'.rows && s'.rows[r].owner.OfWorker? ==> RowInv(s', r))
  }

  ghost predicate OwnRows(s': State, t: nat)
    requires t < |s'.ops|
  {
    forall r :: r in s'.rows && s'.rows[r].owner == OfOp(t) ==> HoldsRow(s', s'.ops[t], r)
  }

  lemma RowsKept(s: State, s': State, t: nat)
    requires RowsInv(s) && t < |s.ops| && SameOps(s, s', t)
    requires OthersRows(s, s', t) && OwnRows(s', t)
    ensures RowsInv(s')
  {
    forall r | r in s'.rows ensures RowInv(s', r) {
      if s'.rows[r].owner.OfOp? && s'.rows[r].owner.op != t {
        assert RowInv(s, r);
      }
    }
  }

  /** Thread t moves on with the rows it holds, or holds none. */
  lemma MovesWithRows(s: State, s': State, t: nat, op: Op)
    requires RowsInv(s) && t < |s.ops|
    requires s'.ops == s.ops[t := op] && s'.rows == s.rows && |s'.pool| == |s.pool|
    requires forall w :: 0 <= w < |s.pool| ==> s'.pool[w].row == s.pool[w].row && s'.pool[w].life == s.pool[w].life
    requires forall r: nat :: HoldsRow(s, s.ops[t], r) ==> HoldsRow(s', op, r)
    ensures RowsInv(s')
  {
    forall r | r in s'.rows && s'.rows[r].owner.OfWorker? ensures RowInv(s', r) {
      assert RowInv(s, r);
    }
    forall r | r in s'.rows && s'.rows[r].owner == OfOp(t) ensures HoldsRow(s', op, r) {
      assert RowInv(s, r);
    }
    RowsKept(s, s', t);
  }

  /** Thread t drops or orphans the one row it holds besides `rest`. */
  lemma RowLeaves(s: State, s': State, t: nat, op: Op, row: nat)
    requires RowsInv(s) && t < |s.ops| && s'.ops == s.ops[t := op] && s'.pool == s.pool
    requires s'.rows == s.rows - {row} || s'.rows == SetOwner(s, row, Orphan).rows
    requires forall r: nat :: HoldsRow(s, s.ops[t], r) && r != row ==> HoldsRow(s', op, r)
    ensures RowsInv(s')
  {
    forall r | r in s'.rows && s'.rows[r].owner.OfWorker? ensures RowInv(s', r) {
      assert RowInv(s, r);
    }
    forall r | r in s'.rows && s'.rows[r].owner == OfOp(t) ensures HoldsRow(s', op, r) {
      assert RowInv(s, r);
    }
    RowsKept(s, s', t);
  }

  lemma PersistRows(s: State, t: nat, id: Ident, ok: bool)
    requires RowsInv(s) && StoreInv(s) && t < |s.ops| && s.ops[t] == Persisting(id)
    ensures RowsInv(Persist(s, t, id, ok))
  {
    var s' := Persist(s, t, id, ok);
    if !ok || Stored(s, id.mgmt) {
      MovesWithRows(s, s', t, SagaDone(false));
    } else {
      forall r | r in s'.rows && s'.rows[r].owner.OfWorker? ensures RowInv(s', r) {
        assert RowInv(s, r);
      }
      forall r | r in s.rows ensures s.rows[r].owner != OfOp(t) {
        assert RowInv(s, r);
      }
      RowsKept(s, s', t);
    }
  }

  lemma LaunchRows(s: State, t: nat, row: nat, id: Ident, conn: nat, next: Next)
    requires RowsInv(s) && t < |s.ops| && s.ops[t] == Launching(row, id, conn, next)
    ensures RowsInv(Launch(s, t, row, id, conn, next))
  {
    var s' := Launch(s, t, row, id, conn, next);
    forall r | r in s'.rows && s'.rows[r].owner.OfWorker? ensures RowInv(s', r) {
      assert RowInv(s, r);
    }
    forall r | r in s'.rows && s'.rows[r].owner == OfOp(t) ensures HoldsRow(s', s'.ops[t], r) {
      assert RowInv(s, r);
    }
    RowsKept(s, s', t);
  }

  lemma RegisterRows(s: State, t: nat, w: nat, next: Next)
    requires Inv(s) && RowsInv(s) && t < |s.ops| && s.ops[t] == Registering(w, next)
    ensures RowsInv(Register(s, t, w, next))
  {
    assert OpInv(s, t);
    var s' := Register(s, t, w, next);
    forall r | r in s'.rows && s'.rows[r].owner.OfWorker? ensures RowInv(s', r) {
      assert r != s.pool[w].row ==> RowInv(s, r);
    }
    forall r | r in s'.rows && s'.rows[r].owner == OfOp(t) ensures HoldsRow(s', s'.ops[t], r) {
      assert RowInv(s, r);
    }
    RowsKept(s, s', t);
  }

  lemma RemovalRows(s: State, t: nat, mgmt: string, tenant: Option<string>)
    requires MapInv(s) && RowsInv(s) && t < |s.ops| && s.ops[t] == Unregistering(mgmt, tenant)
    requires mgmt in s.workers && (tenant.None? || Of(s, s.workers[mgmt]).id.tenant == tenant.value)
    ensures RowsInv(Unregister(s, t, mgmt, tenant))
  {
    var s' := Unregister(s, t, mgmt, tenant);
    Unregisters(s, t, mgmt, tenant);
    assert Indexed(s, mgmt);
    forall r | r in s'.rows && s'.rows[r].owner.OfWorker? ensures RowInv(s', r) {
      assert RowInv(s, r);
    }
    forall r | r in s'.rows && s'.rows[r].owner == OfOp(t) ensures HoldsRow(s', s'.ops[t], r) {
      assert RowInv(s, r);
    }
    RowsKept(s, s', t);
  }

  lemma UnregisterRows(s: State, t: nat, mgmt: string, tenant: Option<string>)
    requires MapInv(s) && RowsInv(s) && t < |s.ops| && s.ops[t] == Unregistering(mgmt, tenant)
    ensures RowsInv(Unregister(s, t, mgmt, tenant))
  {
    if mgmt in s.workers && (tenant.None? || Of(s, s.workers[mgmt]).id.tenant == tenant.value) {
      RemovalRows(s, t, mgmt, tenant);
    } else {
      MovesWithRows(s, Unregister(s, t, mgmt, tenant), t, Done);
    }
  }

  lemma RestoreRows(s: State, t: nat, c: Choice)
    requires RowsInv(s) && t < |s.ops| && Restores(s.ops[t])
    ensures RowsInv(Advance(s, t, c))
  {
    var s' := Advance(s, t, c);
    match s.ops[t] {
      case RestoreNext(todo) =>
        if todo == [] {
          MovesWithRows(s, s', t, Done);
        } else {
          forall r: nat | Has(todo, r) ensures r == todo[0].0 || Has(todo[1..], r) {
            var i :| 0 <= i < |todo| && todo[i].0 == r;
            assert i > 0 ==> todo[1..][i - 1].0 == r;
          }
          MovesWithRows(s, s', t, RestoreListing(todo[0].0, todo[0].1, todo[1..]));
        }
      case RestoreListing(row, id, todo) =>
        if c.ok {
          MovesWithRows(s, s', t, RestoreConnecting(row, id, todo));
        } else {
          RowLeaves(s, s', t, RestoreNext(todo), row);
        }
      case RestoreConnecting(row, id, todo) =>
        if c.ok {
          MovesWithRows(s, s', t, Launching(row, id, |s.conns|, Resume(todo)));
        } else {
          RowLeaves(s, s', t, RestoreNext(todo), row);
        }
    }
  }

  lemma StopRows(s: State, t: nat, w: nat, stage: StopStage, purpose: Purpose)
    requires RowsInv(s) && t < |s.ops| && s.ops[t] == Stopping(w, stage, purpose)
    ensures RowsInv(StopStep(s, t, w, stage, purpose))
  {
    var s' := StopStep(s, t, w, stage, purpose);
    StopMoves(s, t, w, stage, purpose);
    StopKeepsRows(s, t, w, stage, purpose);
    forall r: nat | HoldsRow(s, s.ops[t], r) ensures HoldsRow(s', s'.ops[t], r) {
      assert RowOfWorker(s, w, r) && RowOfWorker(s', w, r);
    }
    MovesWithRows(s, s', t, s'.ops[t]);
  }

  lemma StopMoves(s: State, t: nat, w: nat, stage: StopStage, purpose: Purpose)
    requires t < |s.ops| && s.ops[t] == Stopping(w, stage, purpose)
    ensures
      var s' := StopStep(s, t, w, stage, purpose);
      && |s'.ops| == |s.ops| && s'.ops == s.ops[t := s'.ops[t]]
      && (s'.ops[t] == DeletingRow(w, purpose) || (s'.ops[t].Stopping? && s'.ops[t].worker == w && s'.ops[t].purpose == purpose)
          || (purpose == ForStop && s'.ops[t] == Done))
  {
  }

  lemma StopKeepsRows(s: State, t: nat, w: nat, stage: StopStage, purpose: Purpose)
    requires t < |s.ops| && s.ops[t] == Stopping(w, stage, purpose)
    ensures
      var s' := StopStep(s, t, w, stage, purpose);
      && s'.rows == s.rows && |s'.pool| == |s.pool|
      && forall v :: 0 <= v < |s.pool| ==> s'.pool[v].row == s.pool[v].row && s'.pool[v].life == s.pool[v].life
  {
  }

  lemma DeleteRows(s: State, t: nat, w: nat, purpose: Purpose, ok: bool)
    requires Inv(s) && RowsInv(s) && t < |s.ops| && s.ops[t] == DeletingRow(w, purpose)
    ensures RowsInv(DeleteRow(s, t, w, purpose, ok))
  {
    assert OpInv(s, t);
    RowLeaves(s, DeleteRow(s, t, w, purpose, ok), t,
              if ok || purpose != ForDelete then CountingDown else Done, s.pool[w].row);
  }

  lemma LookRows(s: State, t: nat, c: Choice)
    requires RowsInv(s) && t < |s.ops|
    requires s.ops[t].StopLooking? || s.ops[t].CountingDown? || s.ops[t].StartLooking? || s.ops[t].SwappingOn?
    ensures RowsInv(Advance(s, t, c))
  {
    MovesWithRows(s, Advance(s, t, c), t, Advance(s, t, c).ops[t]);
  }

  lemma TeardownRows(s: State, t: nat, c: Choice)
    requires Inv(s) && RowsInv(s) && t < |s.ops| && TearsDown(s.ops[t])
    ensures RowsInv(Advance(s, t, c))
  {
    var op := s.ops[t];
    if op.Unregistering? {
      UnregisterRows(s, t, op.mgmt, op.tenant);
    } else if op.Stopping? {
      StopRows(s, t, op.worker, op.stage, op.purpose);
    } else if op.DeletingRow? {
      DeleteRows(s, t, op.worker, op.purpose, c.ok);
    } else if op.CancelPump? {
      MovesWithRows(s, Advance(s, t, c), t, Stopping(op.worker, SwapRunning, op.purpose));
    } else {
      LookRows(s, t, c);
    }
  }

  lemma CompensationRows(s: State, t: nat, c: Choice)
    requires RowsInv(s) && t < |s.ops| && (s.ops[t].CloseSub? || s.ops[t].CloseNc? || s.ops[t].Undoing?)
    ensures RowsInv(Advance(s, t, c))
  {
    var s' := Advance(s, t, c);
    match s.ops[t] {
      case CloseSub(row, conn) => MovesWithRows(s, s', t, CloseNc(row, conn));
      case CloseNc(row, _) => MovesWithRows(s, s', t, Undoing(row));
      case Undoing(row) => RowLeaves(s, s', t, SagaDone(false), row);
    }
  }

  lemma ProvisionRows(s: State, t: nat, c: Choice)
    requires Inv(s) && RowsInv(s) && t < |s.ops| && !Restores(s.ops[t]) && !TearsDown(s.ops[t])
    ensures RowsInv(Advance(s, t, c))
  {
    var s', op := Advance(s, t, c), s.ops[t];
    if op.Persisting? {
      PersistRows(s, t, op.id, c.ok);
    } else if op.CloseSub? || op.CloseNc? || op.Undoing? {
      CompensationRows(s, t, c);
    } else if op.Launching? {
      LaunchRows(s, t, op.row, op.id, op.conn, op.next);
    } else if op.Registering? {
      RegisterRows(s, t, op.worker, op.next);
    } else if !Finished(op) {
      QuietRows(s, t, c);
    }
  }

  /** The steps of a saga that pass the row on, or have none. */
  lemma QuietRows(s: State, t: nat, c: Choice)
    requires RowsInv(s) && t < |s.ops|
    requires s.ops[t].Onboarding? || s.ops[t].Connecting? || s.ops[t].Listing? || s.ops[t].Counting? || s.ops[t].Marking?
    ensures RowsInv(Advance(s, t, c))
  {
    var s' := Advance(s, t, c);
    match s.ops[t] {
      case Onboarding => MovesWithRows(s, s', t, if c.ok then Persisting(c.id) else SagaDone(false));
      case Connecting(row, id) => MovesWithRows(s, s', t, if c.ok then Listing(row, id, |s.conns|) else Undoing(row));
      case Listing(row, id, conn) =>
        MovesWithRows(s, s', t, if c.ok then Launching(row, id, conn, Finish) else CloseSub(row, conn));
      case Counting(next) => MovesWithRows(s, s', t, Marking(next));
      case Marking(next) =>
        MovesWithRows(s, s', t, if next.Finish? then SagaDone(true) else RestoreNext(next.todo));
    }
  }

  // ----- every run -----

  lemma ClaimRows(s: State, listing: seq<(nat, Ident)>)
    requires FreshInv(s) && s.phase == Fresh && Lists(s, listing)
    ensures RowsInv(Step(s, RestoreAll(listing)))
  {
    var s' := Step(s, RestoreAll(listing));
    forall r | r in s'.rows ensures RowInv(s', r) {
      assert s'.rows[r].owner == OfOp(|s.ops|) ==> Has(listing, r);
    }
  }

  /** Rows and workers as they were, perhaps with one thread more. */
  lemma SameRowsHeld(s: State, s': State)
    requires RowsInv(s) && s'.rows == s.rows && |s'.pool| == |s.pool| && s.ops <= s'.ops
    requires forall w :: 0 <= w < |s.pool| ==> s'.pool[w].row == s.pool[w].row && s'.pool[w].life == s.pool[w].life
    ensures RowsInv(s')
  {
    forall r | r in s'.rows ensures RowInv(s', r) {
      assert RowInv(s, r);
    }
  }

  lemma RequestRows(s: State, e: Event)
    requires Inv(s) && RowsInv(s) && !e.Proceed?
    ensures RowsInv(Step(s, e))
  {
    if e.RestoreAll? && s.phase == Fresh && Lists(s, e.listing) {
      ClaimRows(s, e.listing);
    } else if !e.Crash? {
      SameRowsHeld(s, Step(s, e));
    }
  }

  lemma {:induction false} RunRows(es: seq<Event>)
    ensures RowsInv(Run(es))
  {
    if es != [] {
      var s, e := Run(es[..|es| - 1]), es[|es| - 1];
      RunRows(es[..|es| - 1]);
      RunKeeps(es[..|es| - 1]);
      if !e.Proceed? {
        RequestRows(s, e);
      } else if e.op < |s.ops| {
        if Restores(s.ops[e.op]) {
          RestoreRows(s, e.op, e.choice);
        } else if TearsDown(s.ops[e.op]) {
          TeardownRows(s, e.op, e.choice);
        } else {
          ProvisionRows(s, e.op, e.choice);
        }
      }
    }
  }

  /** A thread that has ended, well or badly, holds no row and no connection. */
  lemma EndedThreadHoldsNothing(es: seq<Event>, t: nat)
    requires t < |Run(es).ops| && Finished(Run(es).ops[t])
    ensures forall r :: r in Run(es).rows ==> Run(es).rows[r].owner != OfOp(t)
    ensures forall c :: 0 <= c < |Run(es).conns| ==> Run(es).conns[c].owner != OfOp(t)
  {
    var s := Run(es);
    RunKeeps(es);
    RunRows(es);
    forall r | r in s.rows ensures s.rows[r].owner != OfOp(t) {
      assert RowInv(s, r);
    }
    forall c | 0 <= c < |s.conns| ensures s.conns[c].owner != OfOp(t) {
      assert ConnInv(s, c);
    }
  }

  /** With no operation in flight, worker map and store agree: the rows of registered
      workers are exactly the rows that were not given up. */
  lemma MapAgreesWithStore(es: seq<Event>, row: nat)
    requires Quiet(Run(es)) && row in Run(es).rows
    ensures
      var s := Run(es);
      s.rows[row].owner != Orphan <==>
        s.rows[row].id.mgmt in s.workers && RowOfWorker(s, s.workers[s.rows[row].id.mgmt], row)
  {
    var s := Run(es);
    RunKeeps(es);
    RunRows(es);
    assert RowInv(s, row);
    assert s.rows[row].owner.OfOp? ==> Finished(s.ops[s.rows[row].owner.op]);
    var mgmt := s.rows[row].id.mgmt;
    assert mgmt in s.workers ==> Indexed(s, mgmt);
    if s.rows[row].owner.OfWorker? {
      var w := s.rows[row].owner.worker;
      assert WorkerInv(s, w);
      assert Indexed(s, s.pool[w].id.mgmt);
    }
  }

  predicate FailedCall(op: Op, c: Choice) {
    !c.ok && (op.Undoing? || op.DeletingRow? || op.RestoreListing? || op.RestoreConnecting?)
  }

  /** Only a crash, a failed deletion or a failed restoration gives a row up. */
  lemma GivenUpOnFailure(es: seq<Event>, e: Event, row: nat)
    requires row in Run(es).rows && Run(es).rows[row].owner != Orphan
    requires row in Run(es + [e]).rows && Run(es + [e]).rows[row].owner == Orphan
    ensures e == Crash || (e.Proceed? && e.op < |Run(es).ops| && FailedCall(Run(es).ops[e.op], e.choice))
  {
    assert (es + [e])[..|es|] == es;
    if e.Proceed? && e.op < |Run(es).ops| && !FailedCall(Run(es).ops[e.op], e.choice) {
      StaysOwned(Run(es), e.op, e.choice, row);
    }
  }

  lemma StopKeepsOwner(s: State, t: nat, c: Choice)
    requires t < |s.ops| && s.ops[t].Stopping?
    ensures Advance(s, t, c).rows == s.rows
  {
  }

  lemma TeardownKeepsOwner(s: State, t: nat, c: Choice, row: nat)
    requires t < |s.ops| && TearsDown(s.ops[t]) && !FailedCall(s.ops[t], c)
    requires row in s.rows && s.rows[row].owner != Orphan
    ensures row in Advance(s, t, c).rows ==> Advance(s, t, c).rows[row].owner != Orphan
  {
    if s.ops[t].Stopping? {
      StopKeepsOwner(s, t, c);
    }
  }

  lemma StaysOwned(s: State, t: nat, c: Choice, row: nat)
    requires t < |s.ops| && !FailedCall(s.ops[t], c)
    requires row in s.rows && s.rows[row].owner != Orphan
    ensures row in Advance(s, t, c).rows ==> Advance(s, t, c).rows[row].owner != Orphan
  {
    if TearsDown(s.ops[t]) {
      TeardownKeepsOwner(s, t, c, row);
    }
  }
}
