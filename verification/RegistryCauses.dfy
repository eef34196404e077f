/** Why a saga turns back, and what a teardown leaves of its worker. */
module RegistryCauses {
  import opened Domain
  import opened RegistryModel
  import opened RegistryProofs
  import opened RegistrySteps
  import opened RegistryResults

  // ----- sagas -----

  predicate TurnedBack(op: Op) {
    op.CloseSub? || op.CloseNc? || op.Undoing? || op == SagaDone(false)
  }

  predicate Calls(op: Op) {
    op.Onboarding? || op.Persisting? || op.Connecting? || op.Listing?
  }

  /** A saga turns back exactly when one of its four calls fails, or its row cannot be
      stored because the management ID is taken. */
  lemma TurnsBackOnFailure(s: State, t: nat, c: Choice)
    requires t < |s.ops| && Calls(s.ops[t])
    ensures TurnedBack(Advance(s, t, c).ops[t])
       <==> !c.ok || (s.ops[t].Persisting? && exists r :: r in s.rows && s.rows[r].id.mgmt == s.ops[t].id.mgmt)
  {
    if s.ops[t].Persisting? {
      assert Stored(s, s.ops[t].id.mgmt) <==> exists r :: r in s.rows && s.rows[r].id.mgmt == s.ops[t].id.mgmt;
    }
  }

  /** Past its calls it does not turn back: it registers its worker, counts it and ends
      well. */
  lemma EndsWell(s: State, t: nat, first: Choice, second: Choice, third: Choice, fourth: Choice)
    requires Inv(s) && t < |s.ops| && s.ops[t].Launching? && s.ops[t].next == Finish
    ensures
      var s1 := Advance(s, t, first);
      var s2 := Advance(s1, t, second);
      var s3 := Advance(s2, t, third);
      var s4 := Advance(s3, t, fourth);
      && s4.ops[t] == SagaDone(true) && s4.successes == s.successes + 1 && s4.gauge == s.gauge + 1
      && s.ops[t].id.mgmt in s4.workers && s4.workers[s.ops[t].id.mgmt] == |s.pool|
  {
  }

  // ----- teardowns -----

  predicate CancelsPump(op: Op, w: nat) {
    op.CancelPump? && op.worker == w && op.purpose != ForStop
  }

  /** A worker that has left the map was told to stop its pump, or is about to be. */
  ghost predicate PumpTold(s: State, w: nat)
    requires w < |s.pool|
  {
    s.pool[w].life == Unregistered ==>
      s.pool[w].pumpCancelled || exists t :: 0 <= t < |s.ops| && CancelsPump(s.ops[t], w)
  }

  ghost predicate PumpsTold(s: State) {
    forall w :: 0 <= w < |s.pool| ==> PumpTold(s, w)
  }

  /** No step of thread t forgets a cancelled pump, and only leaving the map leaves it. */
  ghost predicate Remembers(s: State, s': State, t: nat) {
    && SameOps(s, s', t) && |s.pool| <= |s'.pool|
    && (forall w :: 0 <= w < |s.pool| ==>
          && (s.pool[w].pumpCancelled ==> s'.pool[w].pumpCancelled)
          && (s'.pool[w].life == Unregistered ==>
                s.pool[w].life == Unregistered || (t < |s'.ops| && CancelsPump(s'.ops[t], w)))
          && (t < |s.ops| && CancelsPump(s.ops[t], w) ==> s'.pool[w].pumpCancelled))
    && (forall w :: |s.pool| <= w < |s'.pool| ==> s'.pool[w].life != Unregistered)
  }

  lemma RemembersTold(s: State, s': State, t: nat)
    requires PumpsTold(s) && t < |s.ops| && Remembers(s, s', t)
    ensures PumpsTold(s')
  {
    forall w | 0 <= w < |s'.pool| ensures PumpTold(s', w) {
      if w < |s.pool| && s.pool[w].life == Unregistered {
        assert PumpTold(s, w);
        if !s.pool[w].pumpCancelled {
          var u :| 0 <= u < |s.ops| && CancelsPump(s.ops[u], w);
          assert u != t ==> s'.ops[u] == s.ops[u];
        }
      }
    }
  }

  lemma ProvisionPool(s: State, t: nat, c: Choice)
    requires t < |s.ops| && !TearsDown(s.ops[t]) && !s.ops[t].Registering? && !s.ops[t].Launching?
    ensures Advance(s, t, c).pool == s.pool
  {
  }

  lemma ProvisionOps(s: State, t: nat, c: Choice)
    requires t < |s.ops| && !TearsDown(s.ops[t]) && !s.ops[t].Registering? && !s.ops[t].Launching?
    ensures SameOps(s, Advance(s, t, c), t)
  {
  }

  lemma SamePoolRemembers(s: State, s': State, t: nat)
    requires SameOps(s, s', t) && s'.pool == s.pool
    requires t < |s.ops| ==> !s.ops[t].CancelPump?
    ensures Remembers(s, s', t)
  {
  }

  lemma ProvisionRemembers(s: State, t: nat, c: Choice)
    requires t < |s.ops| && !TearsDown(s.ops[t]) && !s.ops[t].Registering? && !s.ops[t].Launching?
    ensures Remembers(s, Advance(s, t, c), t)
  {
    ProvisionPool(s, t, c);
    ProvisionOps(s, t, c);
    SamePoolRemembers(s, Advance(s, t, c), t);
  }

  lemma StartRemembers(s: State, t: nat, c: Choice)
    requires Inv(s) && t < |s.ops| && (s.ops[t].Registering? || s.ops[t].Launching?)
    ensures Remembers(s, Advance(s, t, c), t)
  {
    assert OpInv(s, t);
  }

  lemma StopRemembers(s: State, t: nat, w: nat, stage: StopStage, purpose: Purpose)
    requires t < |s.ops| && s.ops[t] == Stopping(w, stage, purpose)
    ensures Remembers(s, StopStep(s, t, w, stage, purpose), t)
  {
  }

  lemma UnregisterRemembers(s: State, t: nat, mgmt: string, tenant: Option<string>)
    requires t < |s.ops| && s.ops[t] == Unregistering(mgmt, tenant)
    ensures Remembers(s, Unregister(s, t, mgmt, tenant), t)
  {
  }

  lemma TeardownRemembers(s: State, t: nat, c: Choice)
    requires t < |s.ops| && TearsDown(s.ops[t])
    ensures Remembers(s, Advance(s, t, c), t)
  {
    var op := s.ops[t];
    if op.Unregistering? {
      UnregisterRemembers(s, t, op.mgmt, op.tenant);
    } else if op.Stopping? {
      StopRemembers(s, t, op.worker, op.stage, op.purpose);
    }
  }

  lemma ProceedTold(s: State, t: nat, c: Choice)
    requires Inv(s) && PumpsTold(s) && t < |s.ops|
    ensures PumpsTold(Advance(s, t, c))
  {
    if TearsDown(s.ops[t]) {
      TeardownRemembers(s, t, c);
    } else if s.ops[t].Registering? || s.ops[t].Launching? {
      StartRemembers(s, t, c);
    } else {
      ProvisionRemembers(s, t, c);
    }
    RemembersTold(s, Advance(s, t, c), t);
  }

  lemma RequestTold(s: State, e: Event)
    requires PumpsTold(s) && !e.Proceed?
    ensures PumpsTold(Step(s, e))
  {
    var s' := Step(s, e);
    forall w | 0 <= w < |s'.pool| ensures PumpTold(s', w) {
      assert PumpTold(s, w);
      if s.pool[w].life == Unregistered && !s.pool[w].pumpCancelled {
        var u :| 0 <= u < |s.ops| && CancelsPump(s.ops[u], w);
        assert s'.ops[u] == s.ops[u];
      }
    }
  }

  lemma {:induction false} RunTold(es: seq<Event>)
    ensures PumpsTold(Run(es))
  {
    if es != [] {
      var s, e := Run(es[..|es| - 1]), es[|es| - 1];
      RunTold(es[..|es| - 1]);
      RunKeeps(es[..|es| - 1]);
      if !e.Proceed? {
        RequestTold(s, e);
      } else if e.op < |s.ops| {
        ProceedTold(s, e.op, e.choice);
      }
    }
  }

  /** With no operation in flight, the pump of every worker that has left the map was
      told to stop. */
  lemma RemovedPumpsTold(es: seq<Event>, w: nat)
    requires Quiet(Run(es)) && w < |Run(es).pool| && Run(es).pool[w].life == Unregistered
    ensures Run(es).pool[w].pumpCancelled
  {
    RunTold(es);
    assert PumpTold(Run(es), w);
    forall t | 0 <= t < |Run(es).ops| ensures !CancelsPump(Run(es).ops[t], w) {
      assert Finished(Run(es).ops[t]);
    }
  }
}
