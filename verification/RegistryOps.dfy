/** The registry's operations as values: each one from call to return, with the
    answers of the outside world as arguments. */
module RegistryOps {
  import opened Domain

  const CHANNEL_CAPACITY: nat := 10

  datatype Gateway = Gateway(
    mgmt: string,
    tenant: string,
    factory: string,
    frequency: int,
    provisioned: bool,
    status: Status)

  datatype Filed = Filed(row: nat, sensor: Sensor)

  /** The two tables, with the ids that the next insertions get. */
  datatype Store = Store(
    gateways: map<nat, Gateway>,
    sensors: map<nat, Filed>,
    nextGateway: nat,
    nextSensor: nat)

  /** The gateway a connection was opened for, and how often each part was closed. */
  datatype Conn = Conn(mgmt: string, subCloses: nat, pubCloses: nat, ncCloses: nat)

  datatype Attached = Attached(id: nat, sensor: Sensor)

  datatype Generator = Generator(algorithm: Algorithm, min: real, max: real)

  /** A worker as the registry sees it; `gateway` is its copy of the row, and
      `since` (history) how many sensors had been deleted when it was made. */
  datatype Worker = Worker(
    row: nat,
    gateway: Gateway,
    sensors: seq<Attached>,
    generators: seq<Generator>,
    conn: nat,
    running: bool,
    publisherClosed: bool,
    pumpCancelled: bool,
    outliers: seq<OutlierCommand>,
    since: nat)

  /** `failedDeletes` and `deleted` (row and id of each deleted sensor) are history. */
  datatype Registry = Registry(
    store: Store,
    workers: map<string, Worker>,
    conns: seq<Conn>,
    gauge: int,
    successes: nat,
    errors: nat,
    failedDeletes: nat,
    deleted: seq<(nat, nat)>)

  datatype Error =
    | OnboardFailed | BadGatewayId | StoreFailed | ConnectFailed
    | GatewayNotFound | SensorNotFound | InvalidRange | ChannelFull

  datatype Result<+T> = Ok(value: T) | Err(error: Error)

  datatype Request = Request(factory: string, frequency: int)

  datatype Onboarding = Refused | Unparsable | Assigned(mgmt: string, tenant: string)

  /** How each external call of one provisioning saga answers, were it made. */
  datatype Outcome = Outcome(
    onboard: Onboarding,
    persists: bool,
    connects: bool,
    lists: bool,
    marks: bool,
    deletes: bool)

  /** How the calls that restore a gateway answer, by row. */
  datatype Recovery = Recovery(lists: nat -> bool, connects: nat -> bool, marks: nat -> bool)

  // ----- the store -----

  predicate Taken(st: Store, mgmt: string) {
    exists r :: r in st.gateways && st.gateways[r].mgmt == mgmt
  }

  predicate SensorTaken(st: Store, sensor: string) {
    exists i :: i in st.sensors && st.sensors[i].sensor.id == sensor
  }

  function Inserted(st: Store, gw: Gateway): Store {
    st.(gateways := st.gateways[st.nextGateway := gw], nextGateway := st.nextGateway + 1)
  }

  /** Deleting a gateway cascades to its sensors. */
  function Dropped(st: Store, row: nat): Store {
    st.(gateways := st.gateways - {row},
        sensors := map i | i in st.sensors && st.sensors[i].row != row :: st.sensors[i])
  }

  function Marked(st: Store, row: nat, status: Status, ok: bool): Store {
    if ok && row in st.gateways
    then st.(gateways := st.gateways[row := st.gateways[row].(status := status)]) else st
  }

  function SensorsBelow(st: Store, row: nat, n: nat): seq<Attached> {
    if n == 0 then []
    else if n - 1 in st.sensors && st.sensors[n - 1].row == row then
      SensorsBelow(st, row, n - 1) + [Attached(n - 1, st.sensors[n - 1].sensor)]
    else SensorsBelow(st, row, n - 1)
  }

  function ListSensors(st: Store, row: nat): seq<Attached> {
    SensorsBelow(st, row, st.nextSensor)
  }

  function GatewaysBelow(st: Store, n: nat): seq<(nat, Gateway)> {
    if n == 0 then []
    else if n - 1 in st.gateways then GatewaysBelow(st, n - 1) + [(n - 1, st.gateways[n - 1])]
    else GatewaysBelow(st, n - 1)
  }

  function ListGateways(st: Store): seq<(nat, Gateway)> {
    GatewaysBelow(st, st.nextGateway)
  }

  // ----- starting a worker -----

  function NewGenerator(s: Sensor): Generator {
    Generator(s.algorithm, s.min, s.max)
  }

  function NewGenerators(sensors: seq<Attached>): (r: seq<Generator>)
    ensures |r| == |sensors|
    ensures forall i :: 0 <= i < |sensors| ==> r[i] == NewGenerator(sensors[i].sensor)
  {
    if sensors == [] then []
    else NewGenerators(sensors[..|sensors| - 1]) + [NewGenerator(sensors[|sensors| - 1].sensor)]
  }

  function Connected(r: Registry, mgmt: string): Registry {
    r.(conns := r.conns + [Conn(mgmt, 0, 0, 0)])
  }

  function StartWorker(r: Registry, row: nat, gw: Gateway, sensors: seq<Attached>, conn: nat, marks: bool): Registry {
    var w := Worker(row, gw, sensors, NewGenerators(sensors), conn, true, false, false, [], |r.deleted|);
    r.(workers := r.workers[gw.mgmt := w], gauge := r.gauge + 1, store := Marked(r.store, row, Online, marks))
  }

  // ----- provisioning, without its stages -----

  /** A configured size or frequency: absent, unreadable and non-positive values
      all give the fallback. */
  function PositiveOr(configured: Option<int>, fallback: int): (r: int)
    ensures fallback > 0 ==> r > 0
    ensures r == if configured.None? || configured.value <= 0 then fallback else configured.value
  {
    if configured.Some? && configured.value > 0 then configured.value else fallback
  }

  const DEFAULT_FREQUENCY: int := 5000

  function Frequency(requested: int, fallback: int): int {
    if requested <= 0 then fallback else requested
  }

  function NewGateway(req: Request, fallback: int, mgmt: string, tenant: string): Gateway {
    Gateway(mgmt, tenant, req.factory, Frequency(req.frequency, fallback), true, Provisioning)
  }

  /** What the saga returns: the first failure in its order of calls, if any. */
  function SagaResult(r: Registry, o: Outcome): Result<nat> {
    if o.onboard.Refused? then Err(OnboardFailed)
    else if o.onboard.Unparsable? then Err(BadGatewayId)
    else if !o.persists || Taken(r.store, o.onboard.mgmt) then Err(StoreFailed)
    else if !o.connects then Err(ConnectFailed)
    else if !o.lists then Err(StoreFailed)
    else Ok(r.store.nextGateway)
  }

  /** Whether a failed saga got as far as storing its row, and as connecting. */
  predicate Persisted(r: Registry, o: Outcome) {
    o.onboard.Assigned? && o.persists && !Taken(r.store, o.onboard.mgmt)
  }

  function AfterCreate(r: Registry, req: Request, fallback: int, o: Outcome): Registry {
    if !Persisted(r, o) then r.(errors := r.errors + 1)
    else
      var row := r.store.nextGateway;
      var gw := NewGateway(req, fallback, o.onboard.mgmt, o.onboard.tenant);
      var stored := Inserted(r.store, gw);
      if o.connects && o.lists then
        StartWorker(Connected(r.(store := stored), gw.mgmt), row, gw, ListSensors(stored, row), |r.conns|, o.marks)
          .(successes := r.successes + 1)
      else
        r.(store := if o.deletes then Dropped(stored, row) else stored,
           conns := if o.connects then r.conns + [Conn(gw.mgmt, 1, 0, 1)] else r.conns,
           errors := r.errors + 1)
  }

  // ----- stopping -----

  function Halted(w: Worker): Worker {
    w.(pumpCancelled := true, running := false, publisherClosed := w.publisherClosed || w.running)
  }

  /** A cancelled pump closes the subscription; the first stop closes the rest. */
  function HaltedConn(w: Worker, c: Conn): Conn {
    var closes := if w.running && !w.publisherClosed then 1 else 0;
    Conn(c.mgmt, c.subCloses + (if w.pumpCancelled then 0 else 1), c.pubCloses + closes, c.ncCloses + closes)
  }

  function Halt(r: Registry, mgmt: string): Registry {
    if mgmt !in r.workers then r
    else
      var w := r.workers[mgmt];
      r.(workers := r.workers[mgmt := Halted(w)],
         conns := if w.conn < |r.conns| then r.conns[w.conn := HaltedConn(w, r.conns[w.conn])] else r.conns)
  }

  function AfterStop(r: Registry, mgmt: string, marks: bool): Registry {
    if mgmt !in r.workers then r
    else Halt(r, mgmt).(store := Marked(r.store, r.workers[mgmt].row, Offline, marks))
  }

  function AfterStart(r: Registry, mgmt: string, marks: bool): Registry {
    if mgmt !in r.workers || r.workers[mgmt].running then r
    else r.(workers := r.workers[mgmt := r.workers[mgmt].(running := true)],
            store := Marked(r.store, r.workers[mgmt].row, Online, marks))
  }

  function AfterDelete(r: Registry, mgmt: string, deletes: bool): Registry {
    if mgmt !in r.workers then r
    else
      var halted := Halt(r, mgmt);
      var gone := halted.(workers := r.workers - {mgmt});
      if deletes then gone.(store := Dropped(r.store, r.workers[mgmt].row), gauge := r.gauge - 1)
      else gone.(failedDeletes := r.failedDeletes + 1)
  }

  function AfterDecommission(r: Registry, tenant: string, mgmt: string, deletes: bool): Registry {
    if mgmt !in r.workers || r.workers[mgmt].gateway.tenant != tenant then r
    else
      Halt(r, mgmt).(workers := r.workers - {mgmt},
                     store := if deletes then Dropped(r.store, r.workers[mgmt].row) else r.store,
                     gauge := r.gauge - 1)
  }

  // ----- sensors -----

  /** The row with this management ID; unique in a well-formed store. */
  function RowBelow(st: Store, mgmt: string, n: nat): (row: Option<nat>)
    ensures row.Some? ==> row.value < n && row.value in st.gateways && st.gateways[row.value].mgmt == mgmt
    ensures row.None? ==> forall r :: r in st.gateways && r < n ==> st.gateways[r].mgmt != mgmt
  {
    if n == 0 then None
    else if n - 1 in st.gateways && st.gateways[n - 1].mgmt == mgmt then Some(n - 1)
    else RowBelow(st, mgmt, n - 1)
  }

  function RowOf(st: Store, mgmt: string): Option<nat> {
    RowBelow(st, mgmt, st.nextGateway)
  }

  function IdBelow(st: Store, sensor: string, n: nat): (id: Option<nat>)
    ensures id.Some? ==> id.value < n && id.value in st.sensors && st.sensors[id.value].sensor.id == sensor
    ensures id.None? ==> forall i :: i in st.sensors && i < n ==> st.sensors[i].sensor.id != sensor
  {
    if n == 0 then None
    else if n - 1 in st.sensors && st.sensors[n - 1].sensor.id == sensor then Some(n - 1)
    else IdBelow(st, sensor, n - 1)
  }

  function IdOf(st: Store, sensor: string): Option<nat> {
    IdBelow(st, sensor, st.nextSensor)
  }

  function AddSensorResult(r: Registry, mgmt: string, sensor: Sensor, canRead: bool, creates: bool): Result<nat> {
    if sensor.min >= sensor.max then Err(InvalidRange)
    else if !canRead then Err(StoreFailed)
    else if RowOf(r.store, mgmt).None? then Err(GatewayNotFound)
    else if !creates || SensorTaken(r.store, sensor.id) then Err(StoreFailed)
    else Ok(r.store.nextSensor)
  }

  function AttachedTo(w: Worker, id: nat, sensor: Sensor): Worker {
    w.(sensors := w.sensors + [Attached(id, sensor)], generators := w.generators + [NewGenerator(sensor)])
  }

  function AfterAddSensor(r: Registry, mgmt: string, sensor: Sensor, canRead: bool, creates: bool): Registry {
    if AddSensorResult(r, mgmt, sensor, canRead, creates).Err? then r
    else
      var id := r.store.nextSensor;
      var st := r.store.(sensors := r.store.sensors[id := Filed(RowOf(r.store, mgmt).value, sensor)], nextSensor := id + 1);
      r.(store := st,
         workers := if mgmt in r.workers then r.workers[mgmt := AttachedTo(r.workers[mgmt], id, sensor)] else r.workers)
  }

  /** Only the store: no worker is told. */
  function AfterDeleteSensor(r: Registry, sensor: string, canRead: bool, deletes: bool): Registry {
    var id := IdOf(r.store, sensor);
    if !canRead || !deletes || id.None? then r
    else r.(store := r.store.(sensors := r.store.sensors - {id.value}),
            deleted := r.deleted + [(r.store.sensors[id.value].row, id.value)])
  }

  // ----- restoration -----

  function RestoreOne(r: Registry, row: nat, gw: Gateway, c: Recovery): Registry {
    if !gw.provisioned || !c.lists(row) || !c.connects(row) then r
    else StartWorker(Connected(r, gw.mgmt), row, gw, ListSensors(r.store, row), |r.conns|, c.marks(row))
  }

  function RestoreEach(r: Registry, listing: seq<(nat, Gateway)>, c: Recovery): Registry {
    if listing == [] then r
    else
      var n := |listing| - 1;
      RestoreOne(RestoreEach(r, listing[..n], c), listing[n].0, listing[n].1, c)
  }

  function AfterRestoreAll(r: Registry, lists: bool, c: Recovery): Registry {
    if lists then RestoreEach(r, ListGateways(r.store), c) else r
  }

  /** A crash leaves the store. */
  function Crashed(r: Registry): Registry {
    Registry(r.store, map[], [], 0, 0, 0, 0, r.deleted)
  }

  // ----- runs -----

  datatype Event =
    | Create(req: Request, outcome: Outcome)
    | Delete(mgmt: string, deletes: bool)
    | Decommission(tenant: string, mgmt: string, deletes: bool)
    | Stop(mgmt: string, marks: bool)
    | Start(mgmt: string, marks: bool)
    | StopOnly(mgmt: string)
    | AddSensor(mgmt: string, sensor: Sensor, canRead: bool, creates: bool)
    | DeleteSensor(sensorId: string, canRead: bool, deletes: bool)
    | RestoreAll(lists: bool, recovery: Recovery)
    | StoreFrequency(mgmt: string, frequency: int)
    | Crash

  /** A worker's command writes its frequency through to the row, if it is positive. */
  function AfterFrequency(r: Registry, mgmt: string, frequency: int): Registry {
    if mgmt !in r.workers || r.workers[mgmt].row !in r.store.gateways || frequency <= 0 then r
    else
      var row := r.workers[mgmt].row;
      r.(store := r.store.(gateways := r.store.gateways[row := r.store.gateways[row].(frequency := frequency)]))
  }

  /** RestoreAll runs at start-up only, when no worker is registered. */
  function Step(r: Registry, fallback: int, e: Event): Registry {
    match e
    case Create(req, o) => AfterCreate(r, req, fallback, o)
    case Delete(mgmt, deletes) => AfterDelete(r, mgmt, deletes)
    case Decommission(tenant, mgmt, deletes) => AfterDecommission(r, tenant, mgmt, deletes)
    case Stop(mgmt, marks) => AfterStop(r, mgmt, marks)
    case Start(mgmt, marks) => AfterStart(r, mgmt, marks)
    case StopOnly(mgmt) => Halt(r, mgmt)
    case AddSensor(mgmt, sensor, canRead, creates) => AfterAddSensor(r, mgmt, sensor, canRead, creates)
    case DeleteSensor(sensor, canRead, deletes) => AfterDeleteSensor(r, sensor, canRead, deletes)
    case RestoreAll(lists, recovery) => if r.workers == map[] then AfterRestoreAll(r, lists, recovery) else r
    case StoreFrequency(mgmt, frequency) => AfterFrequency(r, mgmt, frequency)
    case Crash => Crashed(r)
  }

  const EMPTY := Registry(Store(map[], map[], 0, 0), map[], [], 0, 0, 0, 0, [])

  function Run(fallback: int, es: seq<Event>): Registry {
    if es == [] then EMPTY else Step(Run(fallback, es[..|es| - 1]), fallback, es[|es| - 1])
  }
}
