/** What each completed registry operation does to workers, rows, sensors, connections
    and gauge, told without the functions that do it. */
module RegistryEffects {
  import opened Domain
  import opened RegistryOps
  import opened RegistryOpsProofs
  import WorkerModel
  import WorkerFrequency

  /** All workers but this one are as before. */
  ghost predicate OtherWorkers(r: Registry, r': Registry, mgmt: string) {
    forall m :: m != mgmt ==> (m in r'.workers <==> m in r.workers) && (m in r.workers ==> r'.workers[m] == r.workers[m])
  }

  ghost predicate OtherConns(r: Registry, r': Registry, conn: nat) {
    |r'.conns| == |r.conns| && forall c :: 0 <= c < |r.conns| && c != conn ==> r'.conns[c] == r.conns[c]
  }

  /** Every part of the connection has been closed, once. */
  ghost predicate ClosedOnce(r: Registry, conn: nat, mgmt: string) {
    conn < |r.conns| && r.conns[conn] == Conn(mgmt, 1, 1, 1)
  }

  /** The row and exactly its sensors are gone; other rows and sensors are as before. */
  ghost predicate RowGone(st: Store, st': Store, row: nat) {
    && (forall q :: q in st'.gateways <==> q in st.gateways && q != row)
    && (forall q :: q in st'.gateways ==> st'.gateways[q] == st.gateways[q])
    && (forall i :: i in st'.sensors <==> i in st.sensors && st.sensors[i].row != row)
    && (forall i :: i in st'.sensors ==> st'.sensors[i] == st.sensors[i])
    && st'.nextGateway == st.nextGateway && st'.nextSensor == st.nextSensor
  }

  /** One row has this status; everything else in the store is as before. */
  ghost predicate StatusSet(st: Store, st': Store, row: nat, status: Status) {
    && st'.gateways.Keys == st.gateways.Keys && row in st'.gateways
    && st'.gateways[row].status == status
    && (forall q :: q in st.gateways ==>
          st'.gateways[q] == if q == row then st.gateways[q].(status := st'.gateways[q].status) else st.gateways[q])
    && st'.sensors == st.sensors && st'.nextGateway == st.nextGateway && st'.nextSensor == st.nextSensor
  }

  // ----- removal -----

  /** The worker is gone from the map, its connection closed once in every part, and its
      row gone with its sensors if and only if the deletion succeeded. */
  ghost predicate TakenDown(r: Registry, r': Registry, mgmt: string, deletes: bool)
    requires mgmt in r.workers
  {
    var w := r.workers[mgmt];
    && mgmt !in r'.workers && OtherWorkers(r, r', mgmt)
    && ClosedOnce(r', w.conn, mgmt) && OtherConns(r, r', w.conn)
    && (if deletes then RowGone(r.store, r'.store, w.row) else r'.store == r.store)
    && r'.deleted == r.deleted && r'.successes == r.successes && r'.errors == r.errors
  }

  lemma HaltExact(r: Registry, mgmt: string)
    requires Inv(r) && mgmt in r.workers
    ensures
      var w, h := r.workers[mgmt], Halt(r, mgmt);
      && mgmt in h.workers
      && h.workers[mgmt] == w.(running := false, pumpCancelled := true, publisherClosed := true)
      && OtherWorkers(r, h, mgmt) && ClosedOnce(h, w.conn, mgmt) && OtherConns(r, h, w.conn)
      && h == r.(workers := h.workers, conns := h.conns)
  {
    assert Indexed(r, mgmt);
  }

  /** A decommission takes down the worker registered under this ID and tenant, and
      lowers the gauge, whether or not its row can be deleted; any other does nothing. */
  lemma DecommissionExact(r: Registry, tenant: string, mgmt: string, deletes: bool)
    requires Inv(r)
    ensures
      var r' := AfterDecommission(r, tenant, mgmt, deletes);
      if mgmt in r.workers && r.workers[mgmt].gateway.tenant == tenant then
        && TakenDown(r, r', mgmt, deletes)
        && r'.gauge == r.gauge - 1 && r'.failedDeletes == r.failedDeletes
      else r' == r
  {
    if mgmt in r.workers {
      HaltExact(r, mgmt);
    }
  }

  /** A deletion does the same for any tenant, but a row that cannot be deleted leaves the
      gauge as it was. */
  lemma DeleteExact(r: Registry, mgmt: string, deletes: bool)
    requires Inv(r)
    ensures
      var r' := AfterDelete(r, mgmt, deletes);
      if mgmt in r.workers then
        && TakenDown(r, r', mgmt, deletes)
        && r'.gauge == (if deletes then r.gauge - 1 else r.gauge)
        && r'.failedDeletes == (if deletes then r.failedDeletes else r.failedDeletes + 1)
      else r' == r
  {
    if mgmt in r.workers {
      HaltExact(r, mgmt);
    }
  }

  // ----- stop and start -----

  /** A stopped worker stays registered, its loop ended, its pump cancelled and its
      connection closed once in every part; its row says offline if the write succeeds. */
  lemma StopExact(r: Registry, mgmt: string, marks: bool)
    requires Inv(r)
    ensures
      var r' := AfterStop(r, mgmt, marks);
      if mgmt in r.workers then
        var w := r.workers[mgmt];
        && mgmt in r'.workers
        && r'.workers[mgmt] == w.(running := false, pumpCancelled := true, publisherClosed := true)
        && OtherWorkers(r, r', mgmt) && ClosedOnce(r', w.conn, mgmt) && OtherConns(r, r', w.conn)
        && (if marks then StatusSet(r.store, r'.store, w.row, Offline) else r'.store == r.store)
        && r'.gauge == r.gauge
      else r' == r
  {
    if mgmt in r.workers {
      HaltExact(r, mgmt);
      assert Indexed(r, mgmt);
    }
  }

  /** A worker that is not running is started, and its row says online if the write
      succeeds; nothing is reopened. */
  lemma StartExact(r: Registry, mgmt: string, marks: bool)
    requires Inv(r)
    ensures
      var r' := AfterStart(r, mgmt, marks);
      if mgmt in r.workers && !r.workers[mgmt].running then
        && mgmt in r'.workers && r'.workers[mgmt] == r.workers[mgmt].(running := true)
        && OtherWorkers(r, r', mgmt) && r'.conns == r.conns
        && (if marks then StatusSet(r.store, r'.store, r.workers[mgmt].row, Online) else r'.store == r.store)
        && r'.gauge == r.gauge
      else r' == r
  {
    if mgmt in r.workers {
      assert Indexed(r, mgmt);
    }
  }

  // ----- sensors -----

  /** The errors of AddSensor, each exactly when it is due. */
  lemma AddSensorErrors(r: Registry, mgmt: string, sensor: Sensor, canRead: bool, creates: bool)
    requires StoreOk(r.store)
    ensures
      var result := AddSensorResult(r, mgmt, sensor, canRead, creates);
      && (result == Err(InvalidRange) <==> sensor.min >= sensor.max)
      && (result == Err(GatewayNotFound) <==> sensor.min < sensor.max && canRead && !Taken(r.store, mgmt))
      && (result == Err(StoreFailed) <==>
            sensor.min < sensor.max && (!canRead || (Taken(r.store, mgmt) && (!creates || SensorTaken(r.store, sensor.id)))))
      && (result.Ok? <==>
            sensor.min < sensor.max && canRead && Taken(r.store, mgmt) && creates && !SensorTaken(r.store, sensor.id))
  {
    if Taken(r.store, mgmt) {
      var q :| q in r.store.gateways && r.store.gateways[q].mgmt == mgmt;
      assert q < r.store.nextGateway;
    }
  }

  /** Added, the sensor has a new row for its gateway and, if the gateway's worker is
      registered, the last place in it, with a generator of its own; else nothing
      changes. */
  lemma AddSensorExact(r: Registry, mgmt: string, sensor: Sensor, canRead: bool, creates: bool)
    requires Inv(r)
    ensures
      var r' := AfterAddSensor(r, mgmt, sensor, canRead, creates);
      match AddSensorResult(r, mgmt, sensor, canRead, creates)
      case Err(_) => r' == r
      case Ok(id) =>
        && id !in r.store.sensors && id in r'.store.sensors
        && r'.store.sensors[id].sensor == sensor
        && r'.store.sensors[id].row in r.store.gateways && r.store.gateways[r'.store.sensors[id].row].mgmt == mgmt
        && r'.store.sensors == r.store.sensors[id := r'.store.sensors[id]]
        && r'.store.gateways == r.store.gateways
        && OtherWorkers(r, r', mgmt) && (mgmt in r'.workers <==> mgmt in r.workers)
        && (mgmt in r.workers ==>
              var w := r.workers[mgmt];
              r'.workers[mgmt] == w.(
                sensors := w.sensors + [Attached(id, sensor)],
                generators := w.generators + [Generator(sensor.algorithm, sensor.min, sensor.max)]))
        && r'.conns == r.conns && r'.gauge == r.gauge
  {
  }

  /** Deleted, a sensor is gone from the store, and from nothing else. */
  lemma DeleteSensorExact(r: Registry, sensor: string, canRead: bool, deletes: bool)
    requires StoreOk(r.store)
    ensures
      var r' := AfterDeleteSensor(r, sensor, canRead, deletes);
      if canRead && deletes && SensorTaken(r.store, sensor) then
        && !SensorTaken(r'.store, sensor)
        && (forall i :: i in r'.store.sensors <==> i in r.store.sensors && r.store.sensors[i].sensor.id != sensor)
        && (forall i :: i in r'.store.sensors ==> r'.store.sensors[i] == r.store.sensors[i])
        && r'.store.gateways == r.store.gateways && r'.workers == r.workers && r'.conns == r.conns
      else r' == r
  {
    if SensorTaken(r.store, sensor) {
      var i :| i in r.store.sensors && r.store.sensors[i].sensor.id == sensor;
      assert i < r.store.nextSensor;
    }
  }

  // ----- launch and restoration -----

  /** The frequency and the ticker a created gateway's worker starts with: those asked
      for, or the default for a request that is not positive. */
  lemma CreatedRunsAt(r: Registry, req: Request, fallback: int, o: Outcome, firmware: string)
    requires Inv(r) && fallback > 0 && SagaResult(r, o).Ok?
    ensures
      var frequency := if req.frequency > 0 then req.frequency else fallback;
      var r' := AfterCreate(r, req, fallback, o);
      && o.onboard.mgmt in r'.workers
      && StartsAt(r'.workers[o.onboard.mgmt], frequency, firmware)
  {
    SagaAllOrNothing(r, req, fallback, o);
  }

  /** A creation succeeds exactly when it is onboarded under a free ID and every call
      after that succeeds; the first failure in the order of the calls is its error; and a
      connection was opened exactly when its turn came and it succeeded. */
  lemma CreationErrors(r: Registry, req: Request, fallback: int, o: Outcome)
    ensures
      var result := SagaResult(r, o);
      var stored := o.onboard.Assigned? && o.persists
                    && forall q :: q in r.store.gateways ==> r.store.gateways[q].mgmt != o.onboard.mgmt;
      && (result.Ok? <==> stored && o.connects && o.lists)
      && (result == Err(OnboardFailed) <==> o.onboard == Refused)
      && (result == Err(BadGatewayId) <==> o.onboard == Unparsable)
      && (result == Err(StoreFailed) <==> o.onboard.Assigned? && (!stored || (o.connects && !o.lists)))
      && (result == Err(ConnectFailed) <==> stored && !o.connects)
      && |AfterCreate(r, req, fallback, o).conns| == |r.conns| + if stored && o.connects then 1 else 0
  {
    if o.onboard.Assigned? {
      assert Taken(r.store, o.onboard.mgmt) <==>
        exists q :: q in r.store.gateways && r.store.gateways[q].mgmt == o.onboard.mgmt;
    }
  }

  /** The loop of this worker starts at this frequency, with its period. */
  ghost predicate StartsAt(launched: Worker, frequency: int, firmware: string) {
    var row := WorkerModel.Row(launched.gateway.frequency, launched.gateway.status, firmware);
    var w := WorkerModel.Started(row, Definitions(launched.sensors));
    && w.freq == frequency && w.row.freq == frequency
    && w.ticker == Some(WorkerModel.TickerPeriod(frequency))
  }

  /** A restored gateway's worker starts with the stored frequency. */
  lemma RestoredRunsAt(r: Registry, c: Recovery, mgmt: string, firmware: string)
    requires Inv(r) && r.workers == map[] && mgmt in AfterRestoreAll(r, true, c).workers
    ensures
      var w := AfterRestoreAll(r, true, c).workers[mgmt];
      && w.row in r.store.gateways
      && StartsAt(w, r.store.gateways[w.row].frequency, firmware)
  {
    RestoreRebuilds(r, c);
    var w := AfterRestoreAll(r, true, c).workers[mgmt];
    assert Launched(w, w.row, r.store.gateways[w.row], ListSensors(r.store, w.row));
  }

  /** The rows a restoration has marked: those it restored, if the write succeeded. */
  ghost predicate MarkedIn(listing: seq<(nat, Gateway)>, c: Recovery, row: nat) {
    exists i :: 0 <= i < |listing| && listing[i].0 == row && Restorable(listing[i].1, row, c) && c.marks(row)
  }

  lemma {:induction false} RestoreMarksEach(r: Registry, listing: seq<(nat, Gateway)>, c: Recovery, row: nat)
    requires row in r.store.gateways
    ensures
      var r' := RestoreEach(r, listing, c);
      && row in r'.store.gateways
      && r'.store.gateways[row]
         == if MarkedIn(listing, c, row) then r.store.gateways[row].(status := Online) else r.store.gateways[row]
  {
    if listing != [] {
      var n := |listing| - 1;
      var shorter := listing[..n];
      RestoreMarksEach(r, shorter, c, row);
      assert MarkedIn(listing, c, row) <==>
        MarkedIn(shorter, c, row) || (listing[n].0 == row && Restorable(listing[n].1, row, c) && c.marks(row)) by {
        assert forall i :: 0 <= i < n ==> shorter[i] == listing[i];
      }
    }
  }

  /** Restoration changes a row's status only, to online, and only if it restored the
      gateway and the write succeeded. */
  lemma RestoreMarks(r: Registry, c: Recovery, row: nat)
    requires Inv(r) && row in r.store.gateways
    ensures
      var r', gw := AfterRestoreAll(r, true, c), r.store.gateways[row];
      && row in r'.store.gateways
      && r'.store.gateways[row] == if Restorable(gw, row, c) && c.marks(row) then gw.(status := Online) else gw
  {
    var listing := ListGateways(r.store);
    ListingComplete(r.store);
    RestoreMarksEach(r, listing, c, row);
    var i :| 0 <= i < |listing| && listing[i].0 == row;
    assert listing[i].1 == r.store.gateways[row];
    if MarkedIn(listing, c, row) {
      var k :| 0 <= k < |listing| && listing[k].0 == row && Restorable(listing[k].1, row, c) && c.marks(row);
      assert listing[k].1 == r.store.gateways[row];
    }
  }
}
