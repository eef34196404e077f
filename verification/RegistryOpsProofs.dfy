/** What every sequence of completed registry operations keeps, and what each
    operation means: all-or-nothing creation, exact sensor lists, restoration. */
module RegistryOpsProofs {
  import opened Domain
  import opened RegistryOps
  import WorkerModel
  import WorkerFrequency

  // ----- the invariant -----

  ghost predicate StoreOk(st: Store) {
    && (forall r :: r in st.gateways ==> r < st.nextGateway && st.gateways[r].frequency > 0)
    && (forall q, r :: q in st.gateways && r in st.gateways && st.gateways[q].mgmt == st.gateways[r].mgmt ==> q == r)
    && (forall i :: i in st.sensors ==> i < st.nextSensor && st.sensors[i].row in st.gateways)
    && (forall i, j :: i in st.sensors && j in st.sensors && st.sensors[i].sensor.id == st.sensors[j].sensor.id ==> i == j)
  }

  /** The worker sits under its row's management ID, and its connection was closed
      exactly as often as its flags say. */
  ghost predicate Indexed(r: Registry, mgmt: string)
    requires mgmt in r.workers
  {
    var w := r.workers[mgmt];
    && w.gateway.mgmt == mgmt && w.gateway.frequency > 0
    && w.row in r.store.gateways
    && r.store.gateways[w.row].mgmt == mgmt && r.store.gateways[w.row].tenant == w.gateway.tenant
    && (w.running || w.publisherClosed)
    && w.conn < |r.conns|
    && r.conns[w.conn] == Conn(mgmt, Once(w.pumpCancelled), Once(w.publisherClosed), Once(w.publisherClosed))
  }

  function Once(b: bool): nat {
    if b then 1 else 0
  }

  ghost predicate IndexOk(r: Registry) {
    forall m :: m in r.workers ==> Indexed(r, m)
  }

  ghost predicate Aligned(w: Worker) {
    && |w.generators| == |w.sensors|
    && forall i :: 0 <= i < |w.sensors| ==> w.generators[i] == NewGenerator(w.sensors[i].sensor)
  }

  /** A worker just launched: for this row, with the whole of its configuration, these
      sensors with a generator each, running, nothing cancelled or closed. */
  ghost predicate Launched(w: Worker, row: nat, gw: Gateway, sensors: seq<Attached>) {
    && w.row == row && w.gateway == gw && w.sensors == sensors && Aligned(w)
    && w.running && !w.publisherClosed && !w.pumpCancelled && w.outliers == []
  }

  ghost predicate Has(w: Worker, id: nat) {
    exists i :: 0 <= i < |w.sensors| && w.sensors[i].id == id
  }

  predicate InStore(st: Store, row: nat, id: nat) {
    id in st.sensors && st.sensors[id].row == row
  }

  ghost predicate DeletedSince(r: Registry, since: nat, row: nat, id: nat) {
    exists k :: since <= k < |r.deleted| && r.deleted[k] == (row, id)
  }

  /** The worker's sensors are the stored ones plus those deleted since it was made. */
  ghost predicate SensorsExact(r: Registry, w: Worker) {
    && Aligned(w)
    && w.since <= |r.deleted|
    && (forall i, j :: 0 <= i < j < |w.sensors| ==> w.sensors[i].id != w.sensors[j].id)
    && (forall id: nat :: Has(w, id) <==> InStore(r.store, w.row, id) || DeletedSince(r, w.since, w.row, id))
    && (forall i :: 0 <= i < |w.sensors| && InStore(r.store, w.row, w.sensors[i].id) ==>
          r.store.sensors[w.sensors[i].id].sensor == w.sensors[i].sensor)
  }

  ghost predicate SensorsOk(r: Registry) {
    && (forall m :: m in r.workers ==> SensorsExact(r, r.workers[m]))
    && (forall k :: 0 <= k < |r.deleted| ==> r.deleted[k].1 < r.store.nextSensor && r.deleted[k].1 !in r.store.sensors)
  }

  ghost predicate Inv(r: Registry) {
    && StoreOk(r.store) && IndexOk(r) && SensorsOk(r)
    && r.gauge == |r.workers| + r.failedDeletes
  }

  // ----- listings -----

  lemma {:induction false} ListedBelow(st: Store, row: nat, n: nat)
    ensures forall i :: 0 <= i < |SensorsBelow(st, row, n)| ==>
      && SensorsBelow(st, row, n)[i].id < n
      && InStore(st, row, SensorsBelow(st, row, n)[i].id)
      && st.sensors[SensorsBelow(st, row, n)[i].id].sensor == SensorsBelow(st, row, n)[i].sensor
    ensures forall i, j :: 0 <= i < j < |SensorsBelow(st, row, n)| ==>
      SensorsBelow(st, row, n)[i].id != SensorsBelow(st, row, n)[j].id
    ensures forall id: nat :: id < n && InStore(st, row, id) ==>
      exists i :: 0 <= i < |SensorsBelow(st, row, n)| && SensorsBelow(st, row, n)[i].id == id
  {
    if n > 0 {
      ListedBelow(st, row, n - 1);
      var shorter := SensorsBelow(st, row, n - 1);
      var longer := SensorsBelow(st, row, n);
      forall id: nat | id < n && InStore(st, row, id)
        ensures exists i :: 0 <= i < |longer| && longer[i].id == id
      {
        if id == n - 1 {
          assert longer[|shorter|].id == id;
        } else {
          var i :| 0 <= i < |shorter| && shorter[i].id == id;
          assert longer[i].id == id;
        }
      }
    }
  }

  /** A worker made from the store's list has exactly the stored sensors. */
  lemma FreshSensorsExact(r: Registry, w: Worker)
    requires StoreOk(r.store)
    requires w.sensors == ListSensors(r.store, w.row) && w.generators == NewGenerators(w.sensors)
    requires w.since == |r.deleted|
    ensures SensorsExact(r, w)
  {
    ListedBelow(r.store, w.row, r.store.nextSensor);
  }

  lemma {:induction false} NoneBelow(st: Store, row: nat, n: nat)
    requires forall i :: i in st.sensors ==> st.sensors[i].row != row
    ensures SensorsBelow(st, row, n) == []
  {
    if n > 0 {
      NoneBelow(st, row, n - 1);
    }
  }

  // ----- starting a worker -----

  /** A row's management ID, tenant and sensors are all that workers depend on. */
  ghost predicate SameIdentities(st: Store, st': Store) {
    && st'.sensors == st.sensors && st'.nextSensor == st.nextSensor
    && forall r :: r in st.gateways ==>
         && r in st'.gateways
         && st'.gateways[r].mgmt == st.gateways[r].mgmt && st'.gateways[r].tenant == st.gateways[r].tenant
  }

  lemma SensorsKept(r: Registry, r': Registry, w: Worker, w': Worker)
    requires SensorsExact(r, w) && SameLists(w, w') && r'.deleted == r.deleted
    requires SameStored(r.store, r'.store, w.row)
    ensures SensorsExact(r', w')
  {
    forall id: nat ensures Has(w', id) <==> InStore(r'.store, w'.row, id) || DeletedSince(r', w'.since, w'.row, id) {
      assert Has(w', id) == Has(w, id);
      assert DeletedSince(r', w'.since, w'.row, id) == DeletedSince(r, w.since, w.row, id);
    }
  }

  predicate SameLists(w: Worker, w': Worker) {
    w'.row == w.row && w'.sensors == w.sensors && w'.generators == w.generators && w'.since == w.since
  }

  ghost predicate SameStored(st: Store, st': Store, row: nat) {
    && (forall id: nat :: InStore(st', row, id) <==> InStore(st, row, id))
    && (forall id: nat :: InStore(st, row, id) && InStore(st', row, id) ==> st'.sensors[id] == st.sensors[id])
  }

  /** Nothing is stored, deleted, attached or started. */
  lemma SensorsOkKept(r: Registry, r': Registry)
    requires SensorsOk(r) && r'.deleted == r.deleted
    requires r'.store.nextSensor == r.store.nextSensor && r'.store.sensors.Keys <= r.store.sensors.Keys
    requires forall m :: m in r'.workers ==>
      && m in r.workers && SameLists(r.workers[m], r'.workers[m])
      && SameStored(r.store, r'.store, r.workers[m].row)
    ensures SensorsOk(r')
  {
    forall m | m in r'.workers ensures SensorsExact(r', r'.workers[m]) {
      SensorsKept(r, r', r.workers[m], r'.workers[m]);
    }
  }

  lemma SameIndex(r: Registry, r': Registry)
    requires IndexOk(r) && r'.workers == r.workers && SameIdentities(r.store, r'.store)
    requires |r.conns| <= |r'.conns| && forall c :: 0 <= c < |r.conns| ==> r'.conns[c] == r.conns[c]
    ensures IndexOk(r')
  {
    forall m | m in r'.workers ensures Indexed(r', m) {
      assert Indexed(r, m);
    }
  }

  lemma SameSensors(r: Registry, r': Registry)
    requires SensorsOk(r) && r'.workers == r.workers && r'.deleted == r.deleted
    requires r'.store.sensors == r.store.sensors && r'.store.nextSensor == r.store.nextSensor
    ensures SensorsOk(r')
  {
    SensorsOkKept(r, r');
  }

  lemma StoreChanged(r: Registry, st: Store)
    requires Inv(r) && StoreOk(st) && SameIdentities(r.store, st)
    ensures Inv(r.(store := st))
  {
    SameSensors(r, r.(store := st));
    SameIndex(r, r.(store := st));
  }

  lemma MarkedOk(st: Store, row: nat, status: Status, ok: bool)
    requires StoreOk(st)
    ensures StoreOk(Marked(st, row, status, ok)) && SameIdentities(st, Marked(st, row, status, ok))
  {
  }

  lemma MarkedKeeps(r: Registry, row: nat, status: Status, ok: bool)
    requires Inv(r)
    ensures Inv(r.(store := Marked(r.store, row, status, ok)))
  {
    MarkedOk(r.store, row, status, ok);
    StoreChanged(r, Marked(r.store, row, status, ok));
  }

  lemma StartedSensors(r: Registry, r1: Registry, mgmt: string, w: Worker)
    requires StoreOk(r.store) && SensorsOk(r) && r1.store == r.store && r1.deleted == r.deleted
    requires r1.workers == r.workers[mgmt := w] && w.since == |r.deleted|
    requires w.sensors == ListSensors(r.store, w.row) && w.generators == NewGenerators(w.sensors)
    ensures SensorsOk(r1)
  {
    FreshSensorsExact(r1, w);
    forall m | m in r1.workers ensures SensorsExact(r1, r1.workers[m]) {
      if m != mgmt {
        SensorsKept(r, r1, r.workers[m], r.workers[m]);
      }
    }
  }

  lemma StartedIndex(r: Registry, r1: Registry, mgmt: string, w: Worker)
    requires IndexOk(r) && r1.store == r.store
    requires r1.conns == r.conns + [Conn(mgmt, 0, 0, 0)] && r1.workers == r.workers[mgmt := w]
    requires w.gateway.mgmt == mgmt && w.gateway.frequency > 0 && w.row in r.store.gateways
    requires r.store.gateways[w.row].mgmt == mgmt && r.store.gateways[w.row].tenant == w.gateway.tenant
    requires w.conn == |r.conns| && w.running && !w.pumpCancelled && !w.publisherClosed
    ensures IndexOk(r1)
  {
    forall m | m in r1.workers ensures Indexed(r1, m) {
      assert m != mgmt ==> Indexed(r, m);
    }
  }

  function WithWorker(r: Registry, row: nat, gw: Gateway): Registry {
    var sensors := ListSensors(r.store, row);
    var w := Worker(row, gw, sensors, NewGenerators(sensors), |r.conns|, true, false, false, [], |r.deleted|);
    r.(conns := r.conns + [Conn(gw.mgmt, 0, 0, 0)], workers := r.workers[gw.mgmt := w], gauge := r.gauge + 1)
  }

  lemma WithWorkerKeeps(r: Registry, row: nat, gw: Gateway)
    requires Inv(r) && row in r.store.gateways && gw.mgmt !in r.workers
    requires gw.frequency > 0
    requires r.store.gateways[row].mgmt == gw.mgmt && r.store.gateways[row].tenant == gw.tenant
    ensures Inv(WithWorker(r, row, gw))
  {
    var r1 := WithWorker(r, row, gw);
    var w := r1.workers[gw.mgmt];
    MapGrown(r.workers, gw.mgmt, w);
    StartedSensors(r, r1, gw.mgmt, w);
    StartedIndex(r, r1, gw.mgmt, w);
  }

  /** A worker for a row that no worker serves. */
  lemma StartWorkerKeeps(r: Registry, row: nat, gw: Gateway, marks: bool)
    requires Inv(r) && row in r.store.gateways && gw.mgmt !in r.workers
    requires gw.frequency > 0
    requires r.store.gateways[row].mgmt == gw.mgmt && r.store.gateways[row].tenant == gw.tenant
    ensures Inv(StartWorker(Connected(r, gw.mgmt), row, gw, ListSensors(r.store, row), |r.conns|, marks))
  {
    var r1 := WithWorker(r, row, gw);
    WithWorkerKeeps(r, row, gw);
    MarkedKeeps(r1, row, Online, marks);
    SameKeeps(r1.(store := Marked(r1.store, row, Online, marks)),
              StartWorker(Connected(r, gw.mgmt), row, gw, ListSensors(r.store, row), |r.conns|, marks));
  }

  // ----- creation -----

  lemma InsertedOk(st: Store, gw: Gateway)
    requires StoreOk(st) && !Taken(st, gw.mgmt) && gw.frequency > 0
    ensures StoreOk(Inserted(st, gw)) && SameIdentities(st, Inserted(st, gw))
  {
  }

  lemma CreateKeeps(r: Registry, req: Request, fallback: int, o: Outcome)
    requires Inv(r) && fallback > 0
    ensures Inv(AfterCreate(r, req, fallback, o))
  {
    if Persisted(r, o) {
      var row := r.store.nextGateway;
      var gw := NewGateway(req, fallback, o.onboard.mgmt, o.onboard.tenant);
      var stored := r.(store := Inserted(r.store, gw));
      InsertedOk(r.store, gw);
      StoreChanged(r, stored.store);
      assert gw.mgmt in r.workers ==> Indexed(r, gw.mgmt);
      if o.connects && o.lists {
        StartWorkerKeeps(stored, row, gw, o.marks);
        CountersFree(StartWorker(Connected(stored, gw.mgmt), row, gw, ListSensors(stored.store, row), |r.conns|, o.marks),
                     AfterCreate(r, req, fallback, o));
      } else {
        UndoneInsert(r.store, gw);
        var st := if o.deletes then Dropped(stored.store, row) else stored.store;
        StoreChanged(r, st);
        var conns := if o.connects then r.conns + [Conn(gw.mgmt, 1, 0, 1)] else r.conns;
        MoreConns(r.(store := st), conns);
        CountersFree(r.(store := st, conns := conns), AfterCreate(r, req, fallback, o));
      }
    } else {
      CountersFree(r, AfterCreate(r, req, fallback, o));
    }
  }

  lemma CountersFree(r: Registry, r': Registry)
    requires Inv(r) && r' == r.(successes := r'.successes, errors := r'.errors)
    ensures Inv(r')
  {
    SameSensors(r, r');
    SameIndex(r, r');
  }

  lemma MoreConns(r: Registry, conns: seq<Conn>)
    requires Inv(r) && |r.conns| <= |conns| && forall c :: 0 <= c < |r.conns| ==> conns[c] == r.conns[c]
    ensures Inv(r.(conns := conns))
  {
    SameSensors(r, r.(conns := conns));
    SameIndex(r, r.(conns := conns));
  }

  /** Deleting the row just inserted leaves both tables as they were. */
  lemma UndoneInsert(st: Store, gw: Gateway)
    requires StoreOk(st)
    ensures Dropped(Inserted(st, gw), st.nextGateway) == st.(nextGateway := st.nextGateway + 1)
  {
    var st' := Dropped(Inserted(st, gw), st.nextGateway);
    assert st'.gateways == st.gateways;
    assert st'.sensors == st.sensors;
  }

  lemma SagaFails(r: Registry, req: Request, fallback: int, o: Outcome)
    requires StoreOk(r.store) && SagaResult(r, o).Err?
    ensures LeavesNothing(r, AfterCreate(r, req, fallback, o), o)
  {
    if Persisted(r, o) {
      UndoneInsert(r.store, NewGateway(req, fallback, o.onboard.mgmt, o.onboard.tenant));
    }
  }

  lemma SagaSucceeds(r: Registry, req: Request, fallback: int, o: Outcome)
    requires StoreOk(r.store) && IndexOk(r) && SagaResult(r, o).Ok?
    ensures AddsOne(r, AfterCreate(r, req, fallback, o), SagaResult(r, o).value, req, fallback, o)
  {
    var gw := NewGateway(req, fallback, o.onboard.mgmt, o.onboard.tenant);
    assert gw.mgmt in r.workers ==> Indexed(r, gw.mgmt);
    NoneBelow(Inserted(r.store, gw), r.store.nextGateway, r.store.nextSensor);
  }

  /** Nothing but the error counter changed, unless a compensating deletion was
      needed and failed; a connection that was opened was closed once. */
  ghost predicate LeavesNothing(r: Registry, r': Registry, o: Outcome) {
    && r'.workers == r.workers && r'.gauge == r.gauge
    && r'.errors == r.errors + 1 && r'.successes == r.successes
    && r'.store.sensors == r.store.sensors
    && (r'.store.gateways == r.store.gateways <==> o.deletes || !Persisted(r, o))
    && r.conns <= r'.conns && |r'.conns| <= |r.conns| + 1
    && (forall c :: |r.conns| <= c < |r'.conns| ==>
          r'.conns[c].subCloses == 1 && r'.conns[c].ncCloses == 1 && r'.conns[c].pubCloses == 0)
  }

  /** Exactly one row, one worker and one open connection were added. */
  ghost predicate AddsOne(r: Registry, r': Registry, row: nat, req: Request, fallback: int, o: Outcome) {
    && o.onboard.Assigned?
    && row !in r.store.gateways && o.onboard.mgmt !in r.workers
    && r'.store.gateways.Keys == r.store.gateways.Keys + {row}
    && (forall q :: q in r.store.gateways ==> r'.store.gateways[q] == r.store.gateways[q])
    && r'.store.gateways[row].mgmt == o.onboard.mgmt && r'.store.gateways[row].tenant == o.onboard.tenant
    && r'.store.gateways[row].factory == req.factory && r'.store.gateways[row].provisioned
    && r'.store.gateways[row].frequency == (if req.frequency > 0 then req.frequency else fallback)
    && r'.store.gateways[row].status == (if o.marks then Online else Provisioning)
    && r'.workers.Keys == r.workers.Keys + {o.onboard.mgmt}
    && (forall m :: m in r.workers ==> r'.workers[m] == r.workers[m])
    && Launched(r'.workers[o.onboard.mgmt], row, r'.store.gateways[row].(status := Provisioning), [])
    && r'.workers[o.onboard.mgmt].conn == |r.conns|
    && r'.gauge == r.gauge + 1 && r'.errors == r.errors && r'.successes == r.successes + 1
    && r'.conns == r.conns + [Conn(o.onboard.mgmt, 0, 0, 0)]
  }

  /** Creation is all or nothing, for every pattern of failures. */
  lemma SagaAllOrNothing(r: Registry, req: Request, fallback: int, o: Outcome)
    requires Inv(r)
    ensures
      match SagaResult(r, o)
      case Err(_) => LeavesNothing(r, AfterCreate(r, req, fallback, o), o)
      case Ok(row) => AddsOne(r, AfterCreate(r, req, fallback, o), row, req, fallback, o)
  {
    if SagaResult(r, o).Err? {
      SagaFails(r, req, fallback, o);
    } else {
      SagaSucceeds(r, req, fallback, o);
    }
  }

  // ----- stopping and removal -----

  lemma HaltIndex(r: Registry, mgmt: string)
    requires IndexOk(r) && mgmt in r.workers
    ensures IndexOk(Halt(r, mgmt))
  {
    var r' := Halt(r, mgmt);
    assert Indexed(r, mgmt);
    forall m | m in r'.workers ensures Indexed(r', m) {
      assert Indexed(r, m);
    }
  }

  lemma HaltSensors(r: Registry, mgmt: string)
    requires SensorsOk(r) && mgmt in r.workers
    ensures SensorsOk(Halt(r, mgmt))
  {
    SensorsOkKept(r, Halt(r, mgmt));
  }

  lemma HaltKeeps(r: Registry, mgmt: string)
    requires Inv(r)
    ensures Inv(Halt(r, mgmt))
  {
    if mgmt in r.workers {
      HaltIndex(r, mgmt);
      HaltSensors(r, mgmt);
      MapReplaced(r.workers, mgmt, Halted(r.workers[mgmt]));
    }
  }

  lemma DroppedOk(st: Store, row: nat)
    requires StoreOk(st)
    ensures StoreOk(Dropped(st, row))
    ensures forall other: nat :: other != row ==> SameStored(st, Dropped(st, row), other)
  {
  }

  lemma RemovedIndex(r: Registry, r': Registry, mgmt: string, dropped: bool)
    requires StoreOk(r.store) && IndexOk(r) && mgmt in r.workers
    requires r'.workers == r.workers - {mgmt} && r'.conns == r.conns
    requires r'.store == if dropped then Dropped(r.store, r.workers[mgmt].row) else r.store
    ensures IndexOk(r') && forall m :: m in r'.workers ==> r.workers[m].row != r.workers[mgmt].row
  {
    assert Indexed(r, mgmt);
    forall m | m in r'.workers ensures Indexed(r', m) && r.workers[m].row != r.workers[mgmt].row {
      assert Indexed(r, m);
    }
  }

  lemma RemovedSensors(r: Registry, r': Registry, mgmt: string, dropped: bool)
    requires StoreOk(r.store) && SensorsOk(r) && mgmt in r.workers
    requires r'.workers == r.workers - {mgmt} && r'.deleted == r.deleted
    requires r'.store == if dropped then Dropped(r.store, r.workers[mgmt].row) else r.store
    requires forall m :: m in r'.workers ==> r.workers[m].row != r.workers[mgmt].row
    ensures SensorsOk(r')
  {
    DroppedOk(r.store, r.workers[mgmt].row);
    SensorsOkKept(r, r');
  }

  /** A worker leaves, and its row either goes with it or stays. */
  lemma RemoveKeeps(r: Registry, r': Registry, mgmt: string, dropped: bool)
    requires Inv(r) && mgmt in r.workers
    requires r' == r.(workers := r.workers - {mgmt}, gauge := r'.gauge, failedDeletes := r'.failedDeletes,
                      store := if dropped then Dropped(r.store, r.workers[mgmt].row) else r.store)
    requires r'.gauge - r'.failedDeletes == r.gauge - r.failedDeletes - 1
    ensures Inv(r')
  {
    DroppedOk(r.store, r.workers[mgmt].row);
    RemovedIndex(r, r', mgmt, dropped);
    RemovedSensors(r, r', mgmt, dropped);
    MapShrunk(r.workers, mgmt);
  }

  lemma HaltedAway(r: Registry, mgmt: string)
    requires mgmt in r.workers
    ensures mgmt in Halt(r, mgmt).workers && Halt(r, mgmt).workers - {mgmt} == r.workers - {mgmt}
    ensures Halt(r, mgmt).workers[mgmt].row == r.workers[mgmt].row
    ensures Halt(r, mgmt) == r.(workers := Halt(r, mgmt).workers, conns := Halt(r, mgmt).conns)
  {
  }

  lemma DeleteKeeps(r: Registry, mgmt: string, deletes: bool)
    requires Inv(r)
    ensures Inv(AfterDelete(r, mgmt, deletes))
  {
    if mgmt in r.workers {
      HaltKeeps(r, mgmt);
      var halted := Halt(r, mgmt);
      HaltedAway(r, mgmt);
      RemoveKeeps(halted, AfterDelete(r, mgmt, deletes), mgmt, deletes);
    }
  }

  lemma DecommissionKeeps(r: Registry, tenant: string, mgmt: string, deletes: bool)
    requires Inv(r)
    ensures Inv(AfterDecommission(r, tenant, mgmt, deletes))
  {
    if mgmt in r.workers && r.workers[mgmt].gateway.tenant == tenant {
      HaltKeeps(r, mgmt);
      var halted := Halt(r, mgmt);
      HaltedAway(r, mgmt);
      RemoveKeeps(halted, AfterDecommission(r, tenant, mgmt, deletes), mgmt, deletes);
    }
  }

  lemma StopKeeps(r: Registry, mgmt: string, marks: bool)
    requires Inv(r)
    ensures Inv(AfterStop(r, mgmt, marks))
  {
    if mgmt in r.workers {
      HaltKeeps(r, mgmt);
      MarkedKeeps(Halt(r, mgmt), r.workers[mgmt].row, Offline, marks);
    }
  }

  lemma ResumeIndex(r: Registry, r': Registry, mgmt: string)
    requires IndexOk(r) && mgmt in r.workers
    requires r' == r.(workers := r.workers[mgmt := r.workers[mgmt].(running := true)])
    ensures IndexOk(r')
  {
    forall m | m in r'.workers ensures Indexed(r', m) {
      assert Indexed(r, m);
    }
  }

  lemma ResumeSensors(r: Registry, r': Registry, mgmt: string)
    requires SensorsOk(r) && mgmt in r.workers
    requires r' == r.(workers := r.workers[mgmt := r.workers[mgmt].(running := true)])
    ensures SensorsOk(r')
  {
    SensorsOkKept(r, r');
  }

  lemma ResumeKeeps(r: Registry, mgmt: string)
    requires Inv(r) && mgmt in r.workers
    ensures Inv(r.(workers := r.workers[mgmt := r.workers[mgmt].(running := true)]))
  {
    var r' := r.(workers := r.workers[mgmt := r.workers[mgmt].(running := true)]);
    MapReplaced(r.workers, mgmt, r.workers[mgmt].(running := true));
    ResumeSensors(r, r', mgmt);
    ResumeIndex(r, r', mgmt);
  }

  lemma StartKeeps(r: Registry, mgmt: string, marks: bool)
    requires Inv(r)
    ensures Inv(AfterStart(r, mgmt, marks))
  {
    if mgmt in r.workers && !r.workers[mgmt].running {
      ResumeKeeps(r, mgmt);
      MarkedKeeps(r.(workers := r.workers[mgmt := r.workers[mgmt].(running := true)]), r.workers[mgmt].row, Online, marks);
    }
  }

  lemma CreatedThenDropped(st: Store, gw: Gateway, marks: bool)
    requires StoreOk(st)
    ensures Dropped(Marked(Inserted(st, gw), st.nextGateway, Online, marks), st.nextGateway)
         == st.(nextGateway := st.nextGateway + 1)
  {
    var st' := Dropped(Marked(Inserted(st, gw), st.nextGateway, Online, marks), st.nextGateway);
    assert st'.gateways == st.gateways;
    assert st'.sensors == st.sensors;
  }

  lemma DeletedFields(r: Registry, mgmt: string)
    requires mgmt in r.workers && r.workers[mgmt].conn < |r.conns|
    ensures
      var r' := AfterDelete(r, mgmt, true);
      var w := r.workers[mgmt];
      && r'.workers == r.workers - {mgmt} && r'.gauge == r.gauge - 1
      && r'.store == Dropped(r.store, w.row)
      && r'.conns == r.conns[w.conn := HaltedConn(w, r.conns[w.conn])]
  {
  }

  lemma CreatedWorker(r: Registry, req: Request, fallback: int, o: Outcome)
    requires SagaResult(r, o).Ok? && o.onboard.mgmt !in r.workers
    ensures
      var created := AfterCreate(r, req, fallback, o);
      var gw := NewGateway(req, fallback, o.onboard.mgmt, o.onboard.tenant);
      && gw.mgmt in created.workers && created.workers - {gw.mgmt} == r.workers
      && created.workers[gw.mgmt].row == r.store.nextGateway
      && created.workers[gw.mgmt].conn == |r.conns| && created.gauge == r.gauge + 1
      && created.workers[gw.mgmt].running
      && !created.workers[gw.mgmt].publisherClosed && !created.workers[gw.mgmt].pumpCancelled
      && created.conns == r.conns + [Conn(gw.mgmt, 0, 0, 0)]
      && created.store == Marked(Inserted(r.store, gw), r.store.nextGateway, Online, o.marks)
  {
  }

  lemma SagaTakesFreeId(r: Registry, o: Outcome)
    requires IndexOk(r) && SagaResult(r, o).Ok?
    ensures o.onboard.mgmt !in r.workers
  {
    assert o.onboard.mgmt in r.workers ==> Indexed(r, o.onboard.mgmt);
  }

  lemma LastReplaced(conns: seq<Conn>, c: Conn, c': Conn)
    ensures (conns + [c])[|conns| := c'] == conns + [c']
  {
  }

  /** Deleting a gateway right after its creation undoes the creation. */
  lemma DeleteUndoesCreate(r: Registry, req: Request, fallback: int, o: Outcome)
    requires Inv(r) && fallback > 0 && SagaResult(r, o).Ok?
    ensures
      var r' := AfterDelete(AfterCreate(r, req, fallback, o), o.onboard.mgmt, true);
      && r'.workers == r.workers && r'.gauge == r.gauge
      && r'.store.gateways == r.store.gateways && r'.store.sensors == r.store.sensors
      && r'.conns == r.conns + [Conn(o.onboard.mgmt, 1, 1, 1)]
  {
    var gw := NewGateway(req, fallback, o.onboard.mgmt, o.onboard.tenant);
    SagaTakesFreeId(r, o);
    var created := AfterCreate(r, req, fallback, o);
    CreatedWorker(r, req, fallback, o);
    DeletedFields(created, gw.mgmt);
    CreatedThenDropped(r.store, gw, o.marks);
    var w := created.workers[gw.mgmt];
    assert HaltedConn(w, Conn(gw.mgmt, 0, 0, 0)) == Conn(gw.mgmt, 1, 1, 1);
    LastReplaced(r.conns, Conn(gw.mgmt, 0, 0, 0), Conn(gw.mgmt, 1, 1, 1));
  }

  // ----- sensors -----

  lemma AddSensorStore(r: Registry, mgmt: string, sensor: Sensor, canRead: bool, creates: bool)
    requires StoreOk(r.store) && AddSensorResult(r, mgmt, sensor, canRead, creates).Ok?
    ensures StoreOk(AfterAddSensor(r, mgmt, sensor, canRead, creates).store)
  {
  }

  lemma AddSensorIndex(r: Registry, mgmt: string, sensor: Sensor, canRead: bool, creates: bool)
    requires IndexOk(r)
    ensures IndexOk(AfterAddSensor(r, mgmt, sensor, canRead, creates))
    ensures |AfterAddSensor(r, mgmt, sensor, canRead, creates).workers| == |r.workers|
  {
    var r' := AfterAddSensor(r, mgmt, sensor, canRead, creates);
    if mgmt in r.workers {
      MapReplaced(r.workers, mgmt, AttachedTo(r.workers[mgmt], r.store.nextSensor, sensor));
    }
    forall m | m in r'.workers ensures Indexed(r', m) {
      assert Indexed(r, m);
    }
  }

  lemma AddSensorKeeps(r: Registry, mgmt: string, sensor: Sensor, canRead: bool, creates: bool)
    requires Inv(r)
    ensures Inv(AfterAddSensor(r, mgmt, sensor, canRead, creates))
  {
    if AddSensorResult(r, mgmt, sensor, canRead, creates).Ok? {
      AddSensorStore(r, mgmt, sensor, canRead, creates);
      AddSensorIndex(r, mgmt, sensor, canRead, creates);
      AddSensorLists(r, mgmt, sensor, canRead, creates);
    }
  }

  lemma AddedElsewhere(r: Registry, r': Registry, m: string, mgmt: string, sensor: Sensor)
    requires StoreOk(r.store) && IndexOk(r) && m in r.workers && m != mgmt && RowOf(r.store, mgmt).Some?
    requires r'.store == r.store.(sensors := r.store.sensors[r.store.nextSensor := Filed(RowOf(r.store, mgmt).value, sensor)],
                                  nextSensor := r.store.nextSensor + 1)
    ensures SameStored(r.store, r'.store, r.workers[m].row)
  {
    assert Indexed(r, m);
  }

  lemma AddSensorLists(r: Registry, mgmt: string, sensor: Sensor, canRead: bool, creates: bool)
    requires StoreOk(r.store) && IndexOk(r) && SensorsOk(r)
    requires AddSensorResult(r, mgmt, sensor, canRead, creates).Ok?
    ensures SensorsOk(AfterAddSensor(r, mgmt, sensor, canRead, creates))
  {
    var r' := AfterAddSensor(r, mgmt, sensor, canRead, creates);
    forall m | m in r'.workers ensures SensorsExact(r', r'.workers[m]) {
      if m == mgmt {
        AddSensorAttached(r, mgmt, sensor, canRead, creates);
      } else {
        AddedElsewhere(r, r', m, mgmt, sensor);
        SensorsKept(r, r', r.workers[m], r'.workers[m]);
      }
    }
  }

  lemma AddSensorAttached(r: Registry, mgmt: string, sensor: Sensor, canRead: bool, creates: bool)
    requires StoreOk(r.store) && IndexOk(r) && SensorsOk(r)
    requires AddSensorResult(r, mgmt, sensor, canRead, creates).Ok? && mgmt in r.workers
    ensures
      var r' := AfterAddSensor(r, mgmt, sensor, canRead, creates);
      SensorsExact(r', AttachedTo(r.workers[mgmt], r.store.nextSensor, sensor))
  {
    assert Indexed(r, mgmt);
    AttachKeeps(r, AfterAddSensor(r, mgmt, sensor, canRead, creates), r.workers[mgmt], RowOf(r.store, mgmt).value, sensor);
  }

  /** Attaching the sensor that was just stored keeps the list exact. */
  lemma AttachKeeps(r: Registry, r': Registry, w: Worker, row: nat, sensor: Sensor)
    requires StoreOk(r.store) && SensorsOk(r) && SensorsExact(r, w) && w.row == row
    requires r'.deleted == r.deleted
    requires r'.store == r.store.(sensors := r.store.sensors[r.store.nextSensor := Filed(row, sensor)],
                                  nextSensor := r.store.nextSensor + 1)
    ensures SensorsExact(r', AttachedTo(w, r.store.nextSensor, sensor))
  {
    var id := r.store.nextSensor;
    var w' := AttachedTo(w, id, sensor);
    forall i | 0 <= i < |w.sensors| ensures w.sensors[i].id != id {
      assert Has(w, w.sensors[i].id);
    }
    forall k: nat ensures Has(w', k) <==> InStore(r'.store, row, k) || DeletedSince(r', w'.since, row, k) {
      assert DeletedSince(r', w'.since, row, k) == DeletedSince(r, w.since, row, k);
      assert w'.sensors[|w.sensors|].id == id;
      if k != id {
        assert Has(w', k) == Has(w, k) by {
          forall i | 0 <= i < |w.sensors| ensures w'.sensors[i] == w.sensors[i] {
          }
        }
      }
    }
  }

  lemma DeleteSensorLists(r: Registry, r': Registry, id: nat)
    requires SensorsOk(r) && StoreOk(r.store) && id in r.store.sensors
    requires r' == r.(store := r.store.(sensors := r.store.sensors - {id}),
                      deleted := r.deleted + [(r.store.sensors[id].row, id)])
    ensures SensorsOk(r')
  {
    forall m | m in r'.workers ensures SensorsExact(r', r'.workers[m]) {
      DeletionRecorded(r, r', r.workers[m], id);
    }
  }

  lemma DeleteSensorKeeps(r: Registry, sensor: string, canRead: bool, deletes: bool)
    requires Inv(r)
    ensures Inv(AfterDeleteSensor(r, sensor, canRead, deletes))
  {
    var id := IdOf(r.store, sensor);
    if canRead && deletes && id.Some? {
      var r' := AfterDeleteSensor(r, sensor, canRead, deletes);
      DeleteSensorLists(r, r', id.value);
      forall m | m in r'.workers ensures Indexed(r', m) {
        assert Indexed(r, m);
      }
    }
  }

  lemma DeletedOneMore(r: Registry, r': Registry, since: nat, row: nat, id: nat)
    requires since <= |r.deleted| < |r'.deleted| && r'.deleted == r.deleted + [r'.deleted[|r.deleted|]]
    ensures DeletedSince(r', since, row, id) <==>
      DeletedSince(r, since, row, id) || r'.deleted[|r.deleted|] == (row, id)
  {
    if DeletedSince(r', since, row, id) {
      var d :| since <= d < |r'.deleted| && r'.deleted[d] == (row, id);
      assert d < |r.deleted| ==> r.deleted[d] == (row, id);
    }
    if DeletedSince(r, since, row, id) {
      var d :| since <= d < |r.deleted| && r.deleted[d] == (row, id);
      assert r'.deleted[d] == (row, id);
    }
  }

  /** A deleted sensor moves from the stored ones to the deleted ones. */
  lemma DeletionRecorded(r: Registry, r': Registry, w: Worker, id: nat)
    requires SensorsExact(r, w) && id in r.store.sensors
    requires r'.store == r.store.(sensors := r.store.sensors - {id})
    requires r'.deleted == r.deleted + [(r.store.sensors[id].row, id)]
    ensures SensorsExact(r', w)
  {
    forall k: nat ensures Has(w, k) <==> InStore(r'.store, w.row, k) || DeletedSince(r', w.since, w.row, k) {
      DeletedOneMore(r, r', w.since, w.row, k);
    }
  }

  lemma FrequencyOk(st: Store, row: nat, frequency: int)
    requires StoreOk(st) && row in st.gateways && frequency > 0
    ensures
      var st' := st.(gateways := st.gateways[row := st.gateways[row].(frequency := frequency)]);
      StoreOk(st') && SameIdentities(st, st')
  {
  }

  lemma FrequencyKeeps(r: Registry, mgmt: string, frequency: int)
    requires Inv(r)
    ensures Inv(AfterFrequency(r, mgmt, frequency))
  {
    if mgmt in r.workers && r.workers[mgmt].row in r.store.gateways && frequency > 0 {
      FrequencyOk(r.store, r.workers[mgmt].row, frequency);
      StoreChanged(r, AfterFrequency(r, mgmt, frequency).store);
    }
  }

  // ----- restoration -----

  lemma {:induction false} ListedGateways(st: Store, n: nat)
    ensures forall i :: 0 <= i < |GatewaysBelow(st, n)| ==>
      && GatewaysBelow(st, n)[i].0 < n && GatewaysBelow(st, n)[i].0 in st.gateways
      && GatewaysBelow(st, n)[i].1 == st.gateways[GatewaysBelow(st, n)[i].0]
    ensures forall i, j :: 0 <= i < j < |GatewaysBelow(st, n)| ==> GatewaysBelow(st, n)[i].0 != GatewaysBelow(st, n)[j].0
    ensures forall r :: r in st.gateways && r < n ==> exists i :: 0 <= i < |GatewaysBelow(st, n)| && GatewaysBelow(st, n)[i].0 == r
  {
    if n > 0 {
      ListedGateways(st, n - 1);
      var shorter := GatewaysBelow(st, n - 1);
      var longer := GatewaysBelow(st, n);
      forall r | r in st.gateways && r < n ensures exists i :: 0 <= i < |longer| && longer[i].0 == r {
        if r == n - 1 {
          assert longer[|shorter|].0 == r;
        } else {
          var i :| 0 <= i < |shorter| && shorter[i].0 == r;
          assert longer[i].0 == r;
        }
      }
    }
  }

  predicate Restorable(gw: Gateway, row: nat, c: Recovery) {
    gw.provisioned && c.lists(row) && c.connects(row)
  }

  /** The listing is the store's, as it was when the restoration began. */
  ghost predicate Listing(st: Store, listing: seq<(nat, Gateway)>) {
    && (forall i :: 0 <= i < |listing| ==> listing[i].0 in st.gateways && listing[i].1 == st.gateways[listing[i].0])
    && (forall i, j :: 0 <= i < j < |listing| ==> listing[i].0 != listing[j].0)
  }

  ghost predicate RestoredRow(r': Registry, m: string, listing: seq<(nat, Gateway)>, c: Recovery)
    requires m in r'.workers
  {
    exists i ::
      && 0 <= i < |listing| && Restorable(listing[i].1, listing[i].0, c)
      && listing[i].1.mgmt == m && r'.workers[m].row == listing[i].0
  }

  ghost predicate Complete(st: Store, listing: seq<(nat, Gateway)>) {
    forall row :: row in st.gateways ==> exists i :: 0 <= i < |listing| && listing[i].0 == row
  }

  lemma ListingComplete(st: Store)
    requires StoreOk(st)
    ensures Listing(st, ListGateways(st)) && Complete(st, ListGateways(st))
  {
    ListedGateways(st, st.nextGateway);
  }

  /** After part of the listing: a worker for each restorable row of it, no other. */
  ghost predicate RestoredFrom(r: Registry, r': Registry, listing: seq<(nat, Gateway)>, c: Recovery) {
    && SameIdentities(r.store, r'.store)
    && (forall m :: m in r'.workers ==> RestoredRow(r', m, listing, c))
    && (forall i :: 0 <= i < |listing| && Restorable(listing[i].1, listing[i].0, c) ==>
          && listing[i].1.mgmt in r'.workers
          && Launched(r'.workers[listing[i].1.mgmt], listing[i].0, listing[i].1, ListSensors(r.store, listing[i].0)))
  }

  lemma {:induction false} SameListing(st: Store, st': Store, row: nat, n: nat)
    requires st.sensors == st'.sensors
    ensures SensorsBelow(st, row, n) == SensorsBelow(st', row, n)
  {
    if n > 0 {
      SameListing(st, st', row, n - 1);
    }
  }

  lemma NotYetRestored(r: Registry, r1: Registry, listing: seq<(nat, Gateway)>, c: Recovery)
    requires listing != [] && Listing(r.store, listing) && StoreOk(r.store)
    requires RestoredFrom(r, r1, listing[..|listing| - 1], c)
    ensures listing[|listing| - 1].1.mgmt !in r1.workers
  {
    var n := |listing| - 1;
    var shorter, mgmt := listing[..n], listing[n].1.mgmt;
    assert forall i :: 0 <= i < n ==> shorter[i] == listing[i] && listing[i].0 != listing[n].0;
    assert mgmt in r1.workers ==> RestoredRow(r1, mgmt, shorter, c);
  }

  lemma {:induction false} RestoreEachKeeps(r: Registry, listing: seq<(nat, Gateway)>, c: Recovery)
    requires Inv(r) && r.workers == map[] && Listing(r.store, listing)
    ensures Inv(RestoreEach(r, listing, c))
    ensures RestoredFrom(r, RestoreEach(r, listing, c), listing, c)
  {
    if listing != [] {
      var n := |listing| - 1;
      var shorter := listing[..n];
      var (row, gw) := listing[n];
      var r1 := RestoreEach(r, shorter, c);
      RestoreEachKeeps(r, shorter, c);
      if Restorable(gw, row, c) {
        NotYetRestored(r, r1, listing, c);
        StartWorkerKeeps(r1, row, gw, c.marks(row));
      }
      SameListing(r.store, r1.store, row, r.store.nextSensor);
      RestoredNext(r, r1, listing, c);
    }
  }

  lemma RestoredLists(r: Registry, r1: Registry, listing: seq<(nat, Gateway)>, c: Recovery)
    requires listing != [] && Listing(r.store, listing) && StoreOk(r.store)
    requires RestoredFrom(r, r1, listing[..|listing| - 1], c)
    requires ListSensors(r1.store, listing[|listing| - 1].0) == ListSensors(r.store, listing[|listing| - 1].0)
    ensures forall i :: 0 <= i < |listing| && Restorable(listing[i].1, listing[i].0, c) ==>
      var r2 := RestoreOne(r1, listing[|listing| - 1].0, listing[|listing| - 1].1, c);
      && listing[i].1.mgmt in r2.workers
      && Launched(r2.workers[listing[i].1.mgmt], listing[i].0, listing[i].1, ListSensors(r.store, listing[i].0))
  {
    var n := |listing| - 1;
    var shorter := listing[..n];
    var (row, gw) := listing[n];
    var r2 := RestoreOne(r1, row, gw, c);
    forall i | 0 <= i < |listing| && Restorable(listing[i].1, listing[i].0, c)
      ensures listing[i].1.mgmt in r2.workers
        && Launched(r2.workers[listing[i].1.mgmt], listing[i].0, listing[i].1, ListSensors(r.store, listing[i].0))
    {
      if i < n {
        assert shorter[i] == listing[i];
        assert listing[i].0 != row;
      }
    }
  }

  lemma RestoredRows(r: Registry, r1: Registry, listing: seq<(nat, Gateway)>, c: Recovery)
    requires listing != [] && Listing(r.store, listing) && StoreOk(r.store)
    requires RestoredFrom(r, r1, listing[..|listing| - 1], c)
    requires ListSensors(r1.store, listing[|listing| - 1].0) == ListSensors(r.store, listing[|listing| - 1].0)
    ensures
      var r2 := RestoreOne(r1, listing[|listing| - 1].0, listing[|listing| - 1].1, c);
      forall m :: m in r2.workers ==> RestoredRow(r2, m, listing, c)
  {
    var n := |listing| - 1;
    var shorter := listing[..n];
    var (row, gw) := listing[n];
    var r2 := RestoreOne(r1, row, gw, c);
    forall m | m in r2.workers
      ensures RestoredRow(r2, m, listing, c)
    {
      if m in r1.workers && r2.workers[m] == r1.workers[m] {
        var i :| 0 <= i < |shorter| && Restorable(shorter[i].1, shorter[i].0, c) && shorter[i].1.mgmt == m
          && r1.workers[m].row == shorter[i].0;
        assert listing[i] == shorter[i];
      } else {
        assert m == gw.mgmt;
        assert listing[n] == (row, gw);
      }
    }
  }

  lemma RestoredNext(r: Registry, r1: Registry, listing: seq<(nat, Gateway)>, c: Recovery)
    requires listing != [] && Listing(r.store, listing) && StoreOk(r.store)
    requires RestoredFrom(r, r1, listing[..|listing| - 1], c)
    requires ListSensors(r1.store, listing[|listing| - 1].0) == ListSensors(r.store, listing[|listing| - 1].0)
    ensures RestoredFrom(r, RestoreOne(r1, listing[|listing| - 1].0, listing[|listing| - 1].1, c), listing, c)
  {
    RestoredRows(r, r1, listing, c);
    RestoredLists(r, r1, listing, c);
    RestoredIdentities(r.store, r1, listing[|listing| - 1].0, listing[|listing| - 1].1, c);
  }

  lemma RestoredIdentities(st: Store, r1: Registry, row: nat, gw: Gateway, c: Recovery)
    requires SameIdentities(st, r1.store)
    ensures SameIdentities(st, RestoreOne(r1, row, gw, c).store)
  {
  }

  /** Restoration rebuilds a worker for exactly the provisioned rows whose sensors
      can be listed and whose connection opens, each with the stored configuration and
      sensors, and running. */
  lemma RestoreRebuilds(r: Registry, c: Recovery)
    requires Inv(r) && r.workers == map[]
    ensures
      var r' := AfterRestoreAll(r, true, c);
      && (forall row :: row in r.store.gateways && Restorable(r.store.gateways[row], row, c) ==>
            && r.store.gateways[row].mgmt in r'.workers
            && Launched(r'.workers[r.store.gateways[row].mgmt], row, r.store.gateways[row], ListSensors(r.store, row)))
      && (forall m :: m in r'.workers ==>
            r'.workers[m].row in r.store.gateways
            && Restorable(r.store.gateways[r'.workers[m].row], r'.workers[m].row, c)
            && r.store.gateways[r'.workers[m].row].mgmt == m)
      && r'.store.gateways.Keys == r.store.gateways.Keys && r'.store.sensors == r.store.sensors
  {
    var listing := ListGateways(r.store);
    ListingComplete(r.store);
    RestoreEachKeeps(r, listing, c);
    RestoreKeys(r, listing, c);
    RebuildsAll(r, RestoreEach(r, listing, c), listing, c);
    RebuildsOnly(r, RestoreEach(r, listing, c), listing, c);
  }

  lemma RebuildsAll(r: Registry, r': Registry, listing: seq<(nat, Gateway)>, c: Recovery)
    requires StoreOk(r.store) && RestoredFrom(r, r', listing, c) && Listing(r.store, listing)
    requires Complete(r.store, listing)
    ensures forall row :: row in r.store.gateways && Restorable(r.store.gateways[row], row, c) ==>
      && r.store.gateways[row].mgmt in r'.workers
      && Launched(r'.workers[r.store.gateways[row].mgmt], row, r.store.gateways[row], ListSensors(r.store, row))
  {
    forall row | row in r.store.gateways && Restorable(r.store.gateways[row], row, c)
      ensures r.store.gateways[row].mgmt in r'.workers
      ensures Launched(r'.workers[r.store.gateways[row].mgmt], row, r.store.gateways[row], ListSensors(r.store, row))
    {
      var i :| 0 <= i < |listing| && listing[i].0 == row;
      assert RestoredRow(r', listing[i].1.mgmt, listing, c);
    }
  }

  lemma RebuildsOnly(r: Registry, r': Registry, listing: seq<(nat, Gateway)>, c: Recovery)
    requires RestoredFrom(r, r', listing, c) && Listing(r.store, listing)
    ensures forall m :: m in r'.workers ==>
      && r'.workers[m].row in r.store.gateways
      && Restorable(r.store.gateways[r'.workers[m].row], r'.workers[m].row, c)
      && r.store.gateways[r'.workers[m].row].mgmt == m
  {
    forall m | m in r'.workers
      ensures r'.workers[m].row in r.store.gateways
      ensures Restorable(r.store.gateways[r'.workers[m].row], r'.workers[m].row, c)
      ensures r.store.gateways[r'.workers[m].row].mgmt == m
    {
      assert RestoredRow(r', m, listing, c);
    }
  }

  lemma {:induction false} RestoreKeys(r: Registry, listing: seq<(nat, Gateway)>, c: Recovery)
    ensures RestoreEach(r, listing, c).store.gateways.Keys == r.store.gateways.Keys
    ensures RestoreEach(r, listing, c).store.sensors == r.store.sensors
  {
    if listing != [] {
      RestoreKeys(r, listing[..|listing| - 1], c);
    }
  }

  // ----- every run -----

  lemma RestoreAllKeeps(r: Registry, lists: bool, c: Recovery)
    requires Inv(r) && r.workers == map[]
    ensures Inv(AfterRestoreAll(r, lists, c))
  {
    if lists {
      ListingComplete(r.store);
      RestoreEachKeeps(r, ListGateways(r.store), c);
    }
  }

  lemma CrashKeeps(r: Registry)
    requires Inv(r)
    ensures Inv(Crashed(r))
  {
  }

  lemma SameKeeps(r: Registry, r': Registry)
    requires Inv(r) && r' == r
    ensures Inv(r')
  {
  }

  lemma StepKeeps(r: Registry, fallback: int, e: Event)
    requires Inv(r) && fallback > 0
    ensures Inv(Step(r, fallback, e))
  {
    var r' := Step(r, fallback, e);
    if e.Create? {
      CreateKeeps(r, e.req, fallback, e.outcome);
    } else if e.Delete? {
      DeleteKeeps(r, e.mgmt, e.deletes);
    } else if e.Decommission? {
      DecommissionKeeps(r, e.tenant, e.mgmt, e.deletes);
    } else if e.Stop? {
      StopKeeps(r, e.mgmt, e.marks);
    } else if e.Start? {
      StartKeeps(r, e.mgmt, e.marks);
    } else if e.StopOnly? {
      HaltKeeps(r, e.mgmt);
    } else if e.AddSensor? {
      AddSensorKeeps(r, e.mgmt, e.sensor, e.canRead, e.creates);
      SameKeeps(AfterAddSensor(r, e.mgmt, e.sensor, e.canRead, e.creates), r');
    } else if e.DeleteSensor? {
      DeleteSensorKeeps(r, e.sensorId, e.canRead, e.deletes);
      SameKeeps(AfterDeleteSensor(r, e.sensorId, e.canRead, e.deletes), r');
    } else if e.StoreFrequency? {
      FrequencyKeeps(r, e.mgmt, e.frequency);
      SameKeeps(AfterFrequency(r, e.mgmt, e.frequency), r');
    } else if e.RestoreAll? {
      if r.workers == map[] {
        RestoreAllKeeps(r, e.lists, e.recovery);
      }
    } else {
      CrashKeeps(r);
    }
  }

  /** Every run of completed operations, with crashes and every pattern of failures,
      keeps the index, the sensor lists, the frequencies and the gauge exact. */
  lemma {:induction false} RunKeeps(fallback: int, es: seq<Event>)
    requires fallback > 0
    ensures Inv(Run(fallback, es))
  {
    if es != [] {
      RunKeeps(fallback, es[..|es| - 1]);
      StepKeeps(Run(fallback, es[..|es| - 1]), fallback, es[|es| - 1]);
    }
  }

  /** A worker's sensors, each listed once, are those stored for its gateway, as they
      are stored, and separately those that DeleteSensor took out of the store since the
      worker was made; its generators match them index by index. */
  lemma SensorsAccounted(fallback: int, es: seq<Event>, mgmt: string)
    requires fallback > 0 && mgmt in Run(fallback, es).workers
    ensures
      var r := Run(fallback, es);
      var w := r.workers[mgmt];
      && Aligned(w)
      && (forall i, j :: 0 <= i < j < |w.sensors| ==> w.sensors[i].id != w.sensors[j].id)
      && (forall id: nat :: Has(w, id) <==> InStore(r.store, w.row, id) || DeletedSince(r, w.since, w.row, id))
      && (forall id: nat :: !(InStore(r.store, w.row, id) && DeletedSince(r, w.since, w.row, id)))
      && (forall i :: 0 <= i < |w.sensors| && InStore(r.store, w.row, w.sensors[i].id) ==>
            r.store.sensors[w.sensors[i].id].sensor == w.sensors[i].sensor)
  {
    RunKeeps(fallback, es);
    var r := Run(fallback, es);
    assert SensorsExact(r, r.workers[mgmt]);
  }

  /** Whatever is configured and requested, every stored and every running frequency
      is positive. */
  lemma FrequenciesPositive(configured: Option<int>, es: seq<Event>)
    ensures
      var r := Run(PositiveOr(configured, DEFAULT_FREQUENCY), es);
      && (forall row :: row in r.store.gateways ==> r.store.gateways[row].frequency > 0)
      && (forall m :: m in r.workers ==> r.workers[m].gateway.frequency > 0)
  {
    var fallback := PositiveOr(configured, DEFAULT_FREQUENCY);
    RunKeeps(fallback, es);
    var r := Run(fallback, es);
    forall m | m in r.workers ensures r.workers[m].gateway.frequency > 0 {
      assert Indexed(r, m);
    }
  }

  /** And so is the frequency each worker runs at, whatever happens to it from its launch
      on: its ticker always runs, with that frequency's period. */
  lemma RunningFrequenciesPositive(configured: Option<int>, es: seq<Event>, mgmt: string,
                                   env: WorkerModel.Environment, firmware: string, steps: seq<WorkerModel.Event>)
    requires mgmt in Run(PositiveOr(configured, DEFAULT_FREQUENCY), es).workers
    ensures
      var launched := Run(PositiveOr(configured, DEFAULT_FREQUENCY), es).workers[mgmt];
      var row := WorkerModel.Row(launched.gateway.frequency, launched.gateway.status, firmware);
      var w := WorkerModel.Run(env, WorkerModel.Started(row, Definitions(launched.sensors)), steps);
      && w.freq > 0 && w.row.freq > 0
      && w.ticker == Some(WorkerModel.TickerPeriod(w.freq))
  {
    FrequenciesPositive(configured, es);
    var launched := Run(PositiveOr(configured, DEFAULT_FREQUENCY), es).workers[mgmt];
    var row := WorkerModel.Row(launched.gateway.frequency, launched.gateway.status, firmware);
    WorkerFrequency.RunKeepsTicker(env, row, Definitions(launched.sensors), steps);
  }

  function Definitions(sensors: seq<Attached>): seq<Sensor> {
    seq(|sensors|, i requires 0 <= i < |sensors| => sensors[i].sensor)
  }
}
