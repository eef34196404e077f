/** The registry in the form it runs in: an object whose methods update its worker
    map, call the store and the connector one step at a time, and compensate. Each is
    tied to its operation in `RegistryOps`. */
module GatewayRegistries {
  import opened Domain
  import opened RegistryOps
  import opened RegistryOpsProofs

  datatype Stage = StageProvision | StageStore | StageConnect

  // ----- factory IDs -----

  /** The characters that Unicode counts as white space. */
  predicate IsSpace(c: char) {
    || '\t' <= c <= '\r' || c == ' ' || c == '\U{85}' || c == '\U{A0}' || c == '\U{1680}'
    || '\U{2000}' <= c <= '\U{200A}' || c == '\U{2028}' || c == '\U{2029}'
    || c == '\U{202F}' || c == '\U{205F}' || c == '\U{3000}'
  }

  function TrimLeft(s: string): string {
    if s != "" && IsSpace(s[0]) then TrimLeft(s[1..]) else s
  }

  function TrimRight(s: string): string {
    if s != "" && IsSpace(s[|s| - 1]) then TrimRight(s[..|s| - 1]) else s
  }

  function TrimSpace(s: string): string {
    TrimRight(TrimLeft(s))
  }

  function FactoryIds(raw: seq<string>): seq<string> {
    if raw == [] then []
    else
      var id := TrimSpace(raw[|raw| - 1]);
      if id == "" then FactoryIds(raw[..|raw| - 1]) else FactoryIds(raw[..|raw| - 1]) + [id]
  }

  predicate Trimmed(s: string) {
    s == "" || (!IsSpace(s[0]) && !IsSpace(s[|s| - 1]))
  }

  lemma {:induction false} TrimLeftTrims(s: string)
    ensures TrimLeft(s) != "" ==> !IsSpace(TrimLeft(s)[0])
  {
    if s != "" && IsSpace(s[0]) {
      TrimLeftTrims(s[1..]);
    }
  }

  lemma {:induction false} TrimRightTrims(s: string)
    ensures TrimRight(s) <= s
    ensures TrimRight(s) != "" ==> !IsSpace(TrimRight(s)[|TrimRight(s)| - 1])
  {
    if s != "" && IsSpace(s[|s| - 1]) {
      TrimRightTrims(s[..|s| - 1]);
    }
  }

  lemma TrimSpaceTrims(s: string)
    ensures Trimmed(TrimSpace(s))
  {
    TrimLeftTrims(s);
    TrimRightTrims(TrimLeft(s));
    if TrimSpace(s) != "" {
      assert TrimSpace(s)[0] == TrimLeft(s)[0];
    }
  }

  ghost predicate AllUsable(ids: seq<string>) {
    forall i :: 0 <= i < |ids| ==> ids[i] != "" && Trimmed(ids[i])
  }

  /** Every factory ID that is used is non-blank, with no space at either end. */
  lemma {:induction false} FactoryIdsTrimmed(raw: seq<string>)
    ensures AllUsable(FactoryIds(raw))
  {
    if raw != [] {
      FactoryIdsTrimmed(raw[..|raw| - 1]);
      TrimSpaceTrims(raw[|raw| - 1]);
    }
  }

  function Usable(raw: string): seq<string> {
    if TrimSpace(raw) == "" then [] else [TrimSpace(raw)]
  }

  lemma FactoryIdsNext(raw: seq<string>, last: string)
    ensures FactoryIds(raw + [last]) == FactoryIds(raw) + Usable(last)
  {
    assert (raw + [last])[..|raw|] == raw;
  }

  /** The IDs keep their order: resolving works list by list. */
  lemma {:induction false} FactoryIdsConcat(a: seq<string>, b: seq<string>)
    ensures FactoryIds(a + b) == FactoryIds(a) + FactoryIds(b)
  {
    if b == [] {
      assert a + b == a;
    } else {
      var shorter, last := b[..|b| - 1], b[|b| - 1];
      FactoryIdsConcat(a, shorter);
      FactoryIdsNext(shorter, last);
      FactoryIdsNext(a + shorter, last);
      assert b == shorter + [last];
      assert a + b == (a + shorter) + [last];
    }
  }

  // ----- results of a bulk creation -----

  function Indices(n: nat): (r: set<nat>)
    ensures |r| == n && forall i: nat :: i in r <==> i < n
  {
    if n == 0 then {} else Indices(n - 1) + {n - 1}
  }

  function Oks(results: seq<Result<nat>>): set<nat> {
    set i: nat | 0 <= i < |results| && results[i].Ok?
  }

  lemma OksAt(results: seq<Result<nat>>, i: nat, result: Result<nat>)
    requires i < |results| && results[i].Err?
    ensures Oks(results[i := result]) == if result.Ok? then Oks(results) + {i} else Oks(results)
    ensures |Oks(results[i := result])| == |Oks(results)| + if result.Ok? then 1 else 0
  {
    var updated := results[i := result];
    assert Oks(updated) == if result.Ok? then Oks(results) + {i} else Oks(results);
  }

  /** n gateways more, none of the old ones touched. */
  ghost predicate GrownBy(r: Registry, r': Registry, n: nat) {
    && r'.successes == r.successes + n && r'.gauge == r.gauge + n && |r'.workers| == |r.workers| + n
    && (forall m :: m in r.workers ==> m in r'.workers && r'.workers[m] == r.workers[m])
    && (forall q :: q in r.store.gateways ==> q in r'.store.gateways && r'.store.gateways[q] == r.store.gateways[q])
  }

  lemma CreateGrows(r: Registry, req: Request, fallback: int, o: Outcome)
    requires Inv(r)
    ensures GrownBy(r, AfterCreate(r, req, fallback, o), if SagaResult(r, o).Ok? then 1 else 0)
    ensures AfterCreate(r, req, fallback, o).errors == r.errors + if SagaResult(r, o).Ok? then 0 else 1
  {
    SagaAllOrNothing(r, req, fallback, o);
    var r' := AfterCreate(r, req, fallback, o);
    if SagaResult(r, o).Ok? {
      assert |r'.workers.Keys| == |r.workers.Keys| + 1;
    }
  }

  /** Each result so far is its own gateway's row, made for the ID at its index. */
  ghost predicate Answers(r: Registry, r': Registry, ids: seq<string>, results: seq<Result<nat>>)
    requires |results| == |ids|
  {
    && (forall i :: 0 <= i < |ids| && results[i].Ok? ==>
          && results[i].value in r'.store.gateways && results[i].value !in r.store.gateways
          && r'.store.gateways[results[i].value].factory == ids[i])
    && (forall i, j :: 0 <= i < j < |ids| && results[i].Ok? && results[j].Ok? ==> results[i].value != results[j].value)
  }

  /** Where a bulk creation stands with the indices in `todo` still to be done. */
  ghost predicate BulkOk(start: Registry, r: Registry, ids: seq<string>, results: seq<Result<nat>>, todo: set<nat>) {
    && |results| == |ids|
    && (forall i :: i in todo ==> i < |ids| && results[i].Err?)
    && GrownBy(start, r, |Oks(results)|) && Answers(start, r, ids, results)
    && r.errors == start.errors + |ids| - |todo| - |Oks(results)|
  }

  lemma BulkStart(r: Registry, ids: seq<string>, results: seq<Result<nat>>)
    requires |results| == |ids| && forall i :: 0 <= i < |ids| ==> results[i].Err?
    ensures BulkOk(r, r, ids, results, Indices(|ids|))
  {
    assert Oks(results) == {};
  }

  lemma GrownTwice(start: Registry, r: Registry, r': Registry, n: nat, k: nat)
    requires GrownBy(start, r, n) && GrownBy(r, r', k)
    ensures GrownBy(start, r', n + k)
  {
  }

  lemma BulkStep(start: Registry, r: Registry, ids: seq<string>, results: seq<Result<nat>>, todo: set<nat>, i: nat,
                 frequency: int, fallback: int, o: Outcome)
    requires Inv(r) && BulkOk(start, r, ids, results, todo) && i in todo && fallback > 0
    ensures Inv(AfterCreate(r, Request(ids[i], frequency), fallback, o))
    ensures BulkOk(start, AfterCreate(r, Request(ids[i], frequency), fallback, o), ids,
                   results[i := SagaResult(r, o)], todo - {i})
  {
    var req := Request(ids[i], frequency);
    var r' := AfterCreate(r, req, fallback, o);
    CreateKeeps(r, req, fallback, o);
    CreateGrows(r, req, fallback, o);
    OksAt(results, i, SagaResult(r, o));
    CreateAnswers(start, r, r', ids, results, i, frequency, fallback, o);
    BulkMoves(start, r, r', ids, results, todo, i, SagaResult(r, o));
  }

  lemma BulkMoves(start: Registry, r: Registry, r': Registry, ids: seq<string>, results: seq<Result<nat>>,
                  todo: set<nat>, i: nat, result: Result<nat>)
    requires BulkOk(start, r, ids, results, todo) && i in todo
    requires Answers(start, r', ids, results[i := result])
    requires GrownBy(r, r', if result.Ok? then 1 else 0) && r'.errors == r.errors + if result.Ok? then 0 else 1
    ensures BulkOk(start, r', ids, results[i := result], todo - {i})
  {
    OksAt(results, i, result);
    GrownTwice(start, r, r', |Oks(results)|, if result.Ok? then 1 else 0);
    assert |todo - {i}| == |todo| - 1;
  }

  /** Every call of this saga would succeed. */
  predicate Able(o: Outcome) {
    o.onboard.Assigned? && o.persists && o.connects && o.lists
  }

  /** The row was made for this factory ID, with the frequency and the identity that are
      due, and its worker is registered. */
  ghost predicate MadeFor(r: Registry, id: string, row: nat, frequency: int, fallback: int, o: Outcome) {
    && o.onboard.Assigned? && row in r.store.gateways
    && var gw := r.store.gateways[row];
       && gw.factory == id && gw.mgmt == o.onboard.mgmt && gw.tenant == o.onboard.tenant
       && gw.frequency == (if frequency > 0 then frequency else fallback)
       && gw.mgmt in r.workers && r.workers[gw.mgmt].row == row
  }

  /** What became of one ID: made, or failed for a reason. */
  ghost predicate SettledOne(r: Registry, id: string, result: Result<nat>, frequency: int, fallback: int, o: Outcome) {
    match result
    case Ok(row) => MadeFor(r, id, row, frequency, fallback, o)
    case Err(_) => !Able(o) || Taken(r.store, o.onboard.mgmt)
  }

  ghost predicate Settled(r: Registry, ids: seq<string>, results: seq<Result<nat>>, todo: set<nat>,
                          frequency: int, fallback: int, outcome: nat -> Outcome)
    requires |results| == |ids|
  {
    forall i :: 0 <= i < |ids| && i !in todo ==> SettledOne(r, ids[i], results[i], frequency, fallback, outcome(i))
  }

  lemma SettledStays(r: Registry, r': Registry, n: nat, id: string, result: Result<nat>, frequency: int, fallback: int, o: Outcome)
    requires GrownBy(r, r', n) && SettledOne(r, id, result, frequency, fallback, o)
    ensures SettledOne(r', id, result, frequency, fallback, o)
  {
    if result.Err? && Able(o) {
      var q :| q in r.store.gateways && r.store.gateways[q].mgmt == o.onboard.mgmt;
      assert q in r'.store.gateways && r'.store.gateways[q].mgmt == o.onboard.mgmt;
    }
  }

  lemma CreateSettles(r: Registry, id: string, frequency: int, fallback: int, o: Outcome)
    requires Inv(r)
    ensures SettledOne(AfterCreate(r, Request(id, frequency), fallback, o), id, SagaResult(r, o), frequency, fallback, o)
  {
    var req := Request(id, frequency);
    var r' := AfterCreate(r, req, fallback, o);
    SagaAllOrNothing(r, req, fallback, o);
    if SagaResult(r, o).Err? && Able(o) {
      CreateGrows(r, req, fallback, o);
      var q :| q in r.store.gateways && r.store.gateways[q].mgmt == o.onboard.mgmt;
      assert q in r'.store.gateways && r'.store.gateways[q].mgmt == o.onboard.mgmt;
    }
  }

  lemma SettledStep(r: Registry, ids: seq<string>, results: seq<Result<nat>>, todo: set<nat>, i: nat,
                    frequency: int, fallback: int, outcome: nat -> Outcome)
    requires Inv(r) && |results| == |ids| && i < |ids| && i in todo
    requires Settled(r, ids, results, todo, frequency, fallback, outcome)
    ensures Settled(AfterCreate(r, Request(ids[i], frequency), fallback, outcome(i)), ids,
                    results[i := SagaResult(r, outcome(i))], todo - {i}, frequency, fallback, outcome)
  {
    var req, o := Request(ids[i], frequency), outcome(i);
    var r' := AfterCreate(r, req, fallback, o);
    var updated := results[i := SagaResult(r, o)];
    CreateGrows(r, req, fallback, o);
    CreateSettles(r, ids[i], frequency, fallback, o);
    forall k | 0 <= k < |ids| && k !in todo - {i}
      ensures SettledOne(r', ids[k], updated[k], frequency, fallback, outcome(k))
    {
      if k != i {
        assert updated[k] == results[k];
        SettledStays(r, r', if SagaResult(r, o).Ok? then 1 else 0, ids[k], results[k], frequency, fallback, outcome(k));
      }
    }
  }

  lemma ConnsKnown(r: Registry)
    requires IndexOk(r)
    ensures forall m :: m in r.workers ==> r.workers[m].conn < |r.conns|
  {
    forall m | m in r.workers ensures r.workers[m].conn < |r.conns| {
      assert Indexed(r, m);
    }
  }

  lemma CreateAnswers(start: Registry, r: Registry, r': Registry, ids: seq<string>, results: seq<Result<nat>>, i: nat,
                      frequency: int, fallback: int, o: Outcome)
    requires Inv(r) && i < |ids| && |results| == |ids|
    requires Answers(start, r, ids, results)
    requires forall q :: q in start.store.gateways ==> q in r.store.gateways
    requires r' == AfterCreate(r, Request(ids[i], frequency), fallback, o)
    ensures Answers(start, r', ids, results[i := SagaResult(r, o)])
  {
    var req := Request(ids[i], frequency);
    SagaAllOrNothing(r, req, fallback, o);
    CreateGrows(r, req, fallback, o);
    var updated := results[i := SagaResult(r, o)];
    forall k | 0 <= k < |ids| && updated[k].Ok?
      ensures updated[k].value in r'.store.gateways && updated[k].value !in start.store.gateways
      ensures r'.store.gateways[updated[k].value].factory == ids[k]
      ensures k != i && results[k].Ok? ==> updated[k].value in r.store.gateways
    {
      if k != i {
        assert updated[k] == results[k];
      }
    }
  }

  lemma SagaUndone(r: Registry, req: Request, fallback: int, o: Outcome)
    requires Persisted(r, o) && !(o.connects && o.lists)
    ensures
      var stored := Inserted(r.store, NewGateway(req, fallback, o.onboard.mgmt, o.onboard.tenant));
      AfterCreate(r, req, fallback, o) == r.(
        store := if o.deletes then Dropped(stored, r.store.nextGateway) else stored,
        conns := if o.connects then r.conns + [Conn(o.onboard.mgmt, 1, 0, 1)] else r.conns,
        errors := r.errors + 1)
  {
  }

  lemma SagaDone(r: Registry, req: Request, fallback: int, o: Outcome)
    requires Persisted(r, o) && o.connects && o.lists
    ensures
      var gw := NewGateway(req, fallback, o.onboard.mgmt, o.onboard.tenant);
      var connected := Connected(r.(store := Inserted(r.store, gw)), gw.mgmt);
      AfterCreate(r, req, fallback, o)
      == StartWorker(connected, r.store.nextGateway, gw, ListSensors(connected.store, r.store.nextGateway), |r.conns|, o.marks)
           .(successes := r.successes + 1)
  {
  }

  lemma CreateKeepsConns(r: Registry, req: Request, fallback: int, o: Outcome)
    requires forall m :: m in r.workers ==> r.workers[m].conn < |r.conns|
    ensures
      var r' := AfterCreate(r, req, fallback, o);
      forall m :: m in r'.workers ==> r'.workers[m].conn < |r'.conns|
  {
  }

  // ----- stopping all workers -----

  /** Everything outside `left` was stopped as one Stop would have stopped it. */
  ghost predicate AllHalted(start: Registry, r: Registry, left: set<string>) {
    && r.workers.Keys == start.workers.Keys && |r.conns| == |start.conns|
    && r.store == start.store && r.gauge == start.gauge
    && forall m :: m in start.workers ==>
         && start.workers[m].conn < |r.conns|
         && r.workers[m] == (if m in left then start.workers[m] else Halted(start.workers[m]))
         && r.conns[start.workers[m].conn] == (
              if m in left then start.conns[start.workers[m].conn]
              else HaltedConn(start.workers[m], start.conns[start.workers[m].conn]))
  }

  lemma HaltsOne(start: Registry, r: Registry, left: set<string>, m: string)
    requires AllHalted(start, r, left) && m in left && m in start.workers
    requires forall n :: n in start.workers && n != m ==> start.workers[n].conn != start.workers[m].conn
    ensures AllHalted(start, Halt(r, m), left - {m})
  {
  }

  lemma ConnsApart(r: Registry, m: string)
    requires IndexOk(r) && m in r.workers
    ensures forall n :: n in r.workers && n != m ==> r.workers[n].conn != r.workers[m].conn
  {
    forall n | n in r.workers && n != m ensures r.workers[n].conn != r.workers[m].conn {
      assert Indexed(r, n) && Indexed(r, m);
    }
  }

  /** Workers stopped one after the other. */
  function HaltEach(r: Registry, order: seq<string>): Registry {
    if order == [] then r else Halt(HaltEach(r, order[..|order| - 1]), order[|order| - 1])
  }

  /** The order has each key of the map, once. */
  ghost predicate Enumerates(order: seq<string>, keys: set<string>) {
    && (forall m :: m in order <==> m in keys)
    && (forall i, j :: 0 <= i < j < |order| ==> order[i] != order[j])
  }

  function Without(keys: set<string>, order: seq<string>): set<string> {
    if order == [] then keys else Without(keys, order[..|order| - 1]) - {order[|order| - 1]}
  }

  lemma {:induction false} WithoutHas(keys: set<string>, order: seq<string>, m: string)
    ensures m in Without(keys, order) <==> m in keys && m !in order
  {
    if order != [] {
      var n := |order| - 1;
      WithoutHas(keys, order[..n], m);
      assert order == order[..n] + [order[n]];
    }
  }

  lemma {:induction false} HaltsKeep(start: Registry, order: seq<string>)
    requires Inv(start)
    ensures Inv(HaltEach(start, order))
  {
    if order != [] {
      HaltsKeep(start, order[..|order| - 1]);
      HaltKeeps(HaltEach(start, order[..|order| - 1]), order[|order| - 1]);
    }
  }

  lemma HaltsLast(start: Registry, order: seq<string>, m: string)
    requires IndexOk(start) && m in start.workers && m !in order
    requires AllHalted(start, HaltEach(start, order), Without(start.workers.Keys, order))
    ensures AllHalted(start, Halt(HaltEach(start, order), m), Without(start.workers.Keys, order) - {m})
  {
    ConnsApart(start, m);
    WithoutHas(start.workers.Keys, order, m);
    HaltsOne(start, HaltEach(start, order), Without(start.workers.Keys, order), m);
  }

  lemma {:induction false} HaltsEach(start: Registry, order: seq<string>)
    requires IndexOk(start) && (forall i :: 0 <= i < |order| ==> order[i] in start.workers)
    requires forall i, j :: 0 <= i < j < |order| ==> order[i] != order[j]
    ensures AllHalted(start, HaltEach(start, order), Without(start.workers.Keys, order))
  {
    if order == [] {
      ConnsKnown(start);
    } else {
      var n := |order| - 1;
      HaltsEach(start, order[..n]);
      HaltsLast(start, order[..n], order[n]);
    }
  }

  /** In whatever order, every worker and its connection end up as one stop would
      have left them. */
  lemma StopAllStopsEach(start: Registry, order: seq<string>)
    requires Inv(start) && Enumerates(order, start.workers.Keys)
    ensures Inv(HaltEach(start, order)) && AllHalted(start, HaltEach(start, order), {})
  {
    HaltsKeep(start, order);
    HaltsEach(start, order);
    forall m ensures m !in Without(start.workers.Keys, order) {
      WithoutHas(start.workers.Keys, order, m);
    }
    assert Without(start.workers.Keys, order) == {};
  }

  // ----- outliers -----

  ghost predicate Serves(r: Registry, mgmt: string, row: nat) {
    mgmt in r.workers && r.workers[mgmt].row == row
  }

  lemma OnlyServer(r: Registry, mgmt: string, row: nat)
    requires StoreOk(r.store) && IndexOk(r) && Serves(r, mgmt, row)
    ensures forall other :: Serves(r, other, row) ==> other == mgmt
  {
    forall other | Serves(r, other, row) ensures other == mgmt {
      assert Indexed(r, other) && Indexed(r, mgmt);
    }
  }

  /** The one worker of the sensor's gateway, or why there is none to tell. */
  ghost predicate InjectResult(r: Registry, sensor: string, canRead: bool, result: Result<string>) {
    if !canRead then result == Err(StoreFailed)
    else if IdOf(r.store, sensor).None? then result == Err(SensorNotFound)
    else
      var row := r.store.sensors[IdOf(r.store, sensor).value].row;
      match result
      case Ok(mgmt) =>
        && Serves(r, mgmt, row) && |r.workers[mgmt].outliers| < CHANNEL_CAPACITY
        && forall other :: Serves(r, other, row) ==> other == mgmt
      case Err(GatewayNotFound) => !exists mgmt :: Serves(r, mgmt, row)
      case Err(ChannelFull) => exists mgmt :: Serves(r, mgmt, row) && |r.workers[mgmt].outliers| >= CHANNEL_CAPACITY
      case Err(_) => false
  }

  class GatewayRegistry {
    const defaultFrequency: int

    var workers: map<string, Worker>
    var store: Store
    var conns: seq<Conn>
    var gauge: int
    var successes: nat
    var errors: nat
    var failedDeletes: nat
    var deleted: seq<(nat, nat)>

    function Snapshot(): Registry
      reads this
    {
      Registry(store, workers, conns, gauge, successes, errors, failedDeletes, deleted)
    }

    /** All that the methods rely on. That each keeps the whole of
        `RegistryOpsProofs.Inv` is StepKeeps there, through its ensures. */
    ghost predicate Valid()
      reads this
    {
      forall m :: m in workers ==> workers[m].conn < |conns|
    }

    constructor (defaultFrequency: int, store: Store)
      requires defaultFrequency > 0
      ensures Valid() && this.defaultFrequency == defaultFrequency
      ensures Snapshot() == Registry(store, map[], [], 0, 0, 0, 0, [])
    {
      this.defaultFrequency := defaultFrequency;
      this.store := store;
      workers, conns, gauge, successes, errors := map[], [], 0, 0, 0;
      failedDeletes, deleted := 0, [];
    }

    // ----- external calls: each may fail, and then changes nothing -----

    method CreateGateway(gw: Gateway, ok: bool) returns (id: Option<nat>)
      modifies this`store
      ensures id == if ok && !Taken(old(store), gw.mgmt) then Some(old(store).nextGateway) else None
      ensures store == if id.Some? then Inserted(old(store), gw) else old(store)
    {
      if !ok || Taken(store, gw.mgmt) {
        return None;
      }
      id := Some(store.nextGateway);
      store := Inserted(store, gw);
    }

    method DeleteGateway(row: nat, ok: bool) returns (deleted: bool)
      modifies this`store
      ensures deleted == ok && store == if ok then Dropped(old(store), row) else old(store)
    {
      deleted := ok;
      if ok {
        store := Dropped(store, row);
      }
    }

    method UpdateStatus(row: nat, status: Status, ok: bool) returns (updated: bool)
      modifies this`store
      ensures updated == (ok && row in old(store).gateways)
      ensures store == Marked(old(store), row, status, ok)
    {
      updated := ok && row in store.gateways;
      store := Marked(store, row, status, ok);
    }

    method Connect(mgmt: string, ok: bool) returns (conn: Option<nat>)
      modifies this`conns
      ensures conn == if ok then Some(|old(conns)|) else None
      ensures conns == if ok then old(conns) + [Conn(mgmt, 0, 0, 0)] else old(conns)
    {
      if !ok {
        return None;
      }
      conn := Some(|conns|);
      conns := conns + [Conn(mgmt, 0, 0, 0)];
    }

    // ----- provisioning -----

    method CreateAndStart(req: Request, o: Outcome) returns (result: Result<nat>)
      requires Valid()
      modifies this
      ensures Valid() && Snapshot() == AfterCreate(old(Snapshot()), req, defaultFrequency, o)
      ensures result == SagaResult(old(Snapshot()), o)
    {
      var frequency := req.frequency;
      if frequency <= 0 {
        frequency := defaultFrequency;
      }
      CreateKeepsConns(Snapshot(), req, defaultFrequency, o);
      result := RunProvisioningSaga(Gateway("", "", req.factory, frequency, false, Provisioning), o);
    }

    /** Four stages; a failure undoes those that were reached. */
    method RunProvisioningSaga(draft: Gateway, o: Outcome) returns (result: Result<nat>)
      requires !draft.provisioned && draft.status == Provisioning && draft.mgmt == "" && draft.tenant == ""
      requires draft.frequency > 0 || draft.frequency == defaultFrequency
      modifies this
      ensures Snapshot() == AfterCreate(old(Snapshot()), Request(draft.factory, draft.frequency), defaultFrequency, o)
      ensures result == SagaResult(old(Snapshot()), o)
    {
      ghost var start := Snapshot();
      ghost var req := Request(draft.factory, draft.frequency);
      var reached := StageProvision;
      match o.onboard {
        case Refused =>
          errors := errors + 1;
          return Err(OnboardFailed);
        case Unparsable =>
          errors := errors + 1;
          return Err(BadGatewayId);
        case Assigned(_, _) =>
      }
      var gw := draft.(mgmt := o.onboard.mgmt, tenant := o.onboard.tenant, provisioned := true);
      assert gw == NewGateway(req, defaultFrequency, gw.mgmt, gw.tenant);

      var id := CreateGateway(gw, o.persists);
      if id.None? {
        errors := errors + 1;
        return Err(StoreFailed);
      }
      reached := StageStore;

      var conn := Connect(gw.mgmt, o.connects);
      if conn.None? {
        Compensate(id.value, reached, None, o.deletes);
        errors := errors + 1;
        SagaUndone(start, req, defaultFrequency, o);
        return Err(ConnectFailed);
      }
      reached := StageConnect;

      if !o.lists {
        Compensate(id.value, reached, conn, o.deletes);
        errors := errors + 1;
        SagaUndone(start, req, defaultFrequency, o);
        return Err(StoreFailed);
      }
      var sensors := SensorsOf(id.value);
      LaunchWorker(id.value, gw, sensors, conn.value, o.marks);
      successes := successes + 1;
      SagaDone(start, req, defaultFrequency, o);
      result := Ok(id.value);
    }

    /** Undo what the saga did up to a stage: each case falls through to the one before. */
    method Compensate(row: nat, reached: Stage, conn: Option<nat>, deletes: bool)
      requires conn.Some? ==> conn.value < |conns|
      modifies this`store, this`conns
      ensures conns == if reached == StageConnect && conn.Some?
        then old(conns)[conn.value := old(conns)[conn.value].(
               subCloses := old(conns)[conn.value].subCloses + 1, ncCloses := old(conns)[conn.value].ncCloses + 1)]
        else old(conns)
      ensures store == if reached != StageProvision && deletes then Dropped(old(store), row) else old(store)
    {
      if reached == StageConnect && conn.Some? {
        var c := conn.value;
        conns := conns[c := conns[c].(subCloses := conns[c].subCloses + 1)];
        conns := conns[c := conns[c].(ncCloses := conns[c].ncCloses + 1)];
      }
      if reached != StageProvision {
        var _ := DeleteGateway(row, deletes);
      }
    }

    /** The gateway's sensors, in the order of their rows. */
    method SensorsOf(row: nat) returns (sensors: seq<Attached>)
      ensures sensors == ListSensors(store, row)
    {
      sensors := [];
      for n := 0 to store.nextSensor
        invariant sensors == SensorsBelow(store, row, n)
      {
        if n in store.sensors && store.sensors[n].row == row {
          sensors := sensors + [Attached(n, store.sensors[n].sensor)];
        }
      }
    }

    method LaunchWorker(row: nat, gw: Gateway, sensors: seq<Attached>, conn: nat, marks: bool)
      modifies this
      ensures Snapshot() == StartWorker(old(Snapshot()), row, gw, sensors, conn, marks)
      ensures gw.mgmt in workers && Launched(workers[gw.mgmt], row, gw, sensors) && workers[gw.mgmt].conn == conn
    {
      var gens: seq<Generator> := [];
      for i := 0 to |sensors|
        invariant gens == NewGenerators(sensors[..i])
      {
        gens := gens + [NewGenerator(sensors[i].sensor)];
        assert sensors[..i + 1][..i] == sensors[..i];
      }
      assert sensors[..|sensors|] == sensors;
      var w := Worker(row, gw, sensors, gens, conn, true, false, false, [], |deleted|);
      workers := workers[gw.mgmt := w];
      gauge := gauge + 1;
      var _ := UpdateStatus(row, Online, marks);
    }

    /** One creation per usable factory ID, in any order; results in the order of the IDs. */
    method BulkCreateGateways(raw: seq<string>, frequency: int, outcome: nat -> Outcome)
      returns (ids: seq<string>, results: seq<Result<nat>>)
      requires Inv(Snapshot()) && defaultFrequency > 0
      modifies this
      ensures ids == FactoryIds(raw)
      ensures Inv(Snapshot()) && BulkOk(old(Snapshot()), Snapshot(), ids, results, {})
      ensures Settled(Snapshot(), ids, results, {}, frequency, defaultFrequency, outcome)
    {
      ids := ResolveFactoryIds(raw);
      results := seq(|ids|, i requires 0 <= i < |ids| => Err(OnboardFailed));
      var todo := Indices(|ids|);
      BulkStart(Snapshot(), ids, results);
      while todo != {}
        invariant Inv(Snapshot()) && BulkOk(old(Snapshot()), Snapshot(), ids, results, todo)
        invariant Settled(Snapshot(), ids, results, todo, frequency, defaultFrequency, outcome)
      {
        var i :| i in todo;
        ConnsKnown(Snapshot());
        BulkStep(old(Snapshot()), Snapshot(), ids, results, todo, i, frequency, defaultFrequency, outcome(i));
        SettledStep(Snapshot(), ids, results, todo, i, frequency, defaultFrequency, outcome);
        ghost var before := Snapshot();
        var result := CreateAndStart(Request(ids[i], frequency), outcome(i));
        SameKeeps(AfterCreate(before, Request(ids[i], frequency), defaultFrequency, outcome(i)), Snapshot());
        results := results[i := result];
        todo := todo - {i};
      }
    }

    /** Trim each ID and leave out the blank ones. */
    static method ResolveFactoryIds(raw: seq<string>) returns (ids: seq<string>)
      ensures ids == FactoryIds(raw)
    {
      ids := [];
      for i := 0 to |raw|
        invariant ids == FactoryIds(raw[..i])
      {
        assert raw[..i + 1][..i] == raw[..i];
        var trimmed := TrimSpace(raw[i]);
        if trimmed != "" {
          ids := ids + [trimmed];
        }
      }
      assert raw[..|raw|] == raw;
    }

    // ----- stop, start and removal -----

    /** Cancel the pump, which closes the subscription, and stop the loop; the first
        stop of a worker closes its publisher and its connection. */
    method StopWorker(w: Worker) returns (stopped: Worker)
      requires w.conn < |conns|
      modifies this`conns
      ensures stopped == Halted(w)
      ensures conns == old(conns)[w.conn := HaltedConn(w, old(conns)[w.conn])]
    {
      stopped := w;
      var c := conns[w.conn];
      if !w.pumpCancelled {
        stopped := stopped.(pumpCancelled := true);
        c := c.(subCloses := c.subCloses + 1);
      }
      if stopped.running {
        stopped := stopped.(running := false);
        if !stopped.publisherClosed {
          stopped := stopped.(publisherClosed := true);
          c := c.(pubCloses := c.pubCloses + 1);
          c := c.(ncCloses := c.ncCloses + 1);
        }
      }
      conns := conns[w.conn := c];
    }

    method HaltWorker(mgmt: string)
      requires mgmt in workers && workers[mgmt].conn < |conns|
      modifies this`conns, this`workers
      ensures Snapshot() == Halt(old(Snapshot()), mgmt)
    {
      var w := StopWorker(workers[mgmt]);
      workers := workers[mgmt := w];
    }

    method Stop(mgmt: string, marks: bool) returns (result: Result<()>)
      requires Valid()
      modifies this
      ensures Valid() && Snapshot() == AfterStop(old(Snapshot()), mgmt, marks)
      ensures result.Ok? <==> mgmt in old(workers) && marks && old(workers)[mgmt].row in old(store).gateways
      ensures mgmt !in old(workers) ==> result == Err(GatewayNotFound)
    {
      if mgmt !in workers {
        return Err(GatewayNotFound);
      }
      var row := workers[mgmt].row;
      HaltWorker(mgmt);
      var updated := UpdateStatus(row, Offline, marks);
      result := if updated then Ok(()) else Err(StoreFailed);
    }

    method Start(mgmt: string, marks: bool) returns (result: Result<()>)
      requires Valid()
      modifies this
      ensures Valid() && Snapshot() == AfterStart(old(Snapshot()), mgmt, marks)
      ensures result.Ok? <==>
        mgmt in old(workers) && (old(workers)[mgmt].running || (marks && old(workers)[mgmt].row in old(store).gateways))
      ensures mgmt !in old(workers) ==> result == Err(GatewayNotFound)
    {
      if mgmt !in workers {
        return Err(GatewayNotFound);
      }
      if workers[mgmt].running {
        return Ok(());
      }
      var w := workers[mgmt].(running := true);
      workers := workers[mgmt := w];
      var updated := UpdateStatus(w.row, Online, marks);
      result := if updated then Ok(()) else Err(StoreFailed);
    }

    method Delete(mgmt: string, deletes: bool) returns (result: Result<()>)
      requires Valid()
      modifies this
      ensures Valid() && Snapshot() == AfterDelete(old(Snapshot()), mgmt, deletes)
      ensures result.Ok? <==> mgmt in old(workers) && deletes
      ensures mgmt !in old(workers) ==> result == Err(GatewayNotFound)
    {
      if mgmt !in workers {
        return Err(GatewayNotFound);
      }
      var w := workers[mgmt];
      workers := workers - {mgmt};
      var _ := StopWorker(w);
      var gone := DeleteGateway(w.row, deletes);
      if !gone {
        failedDeletes := failedDeletes + 1;
        return Err(StoreFailed);
      }
      gauge := gauge - 1;
      result := Ok(());
    }

    /** The event names a management ID, which may not parse, and a tenant. */
    method HandleDecommission(tenant: string, id: Option<string>, deletes: bool)
      requires Valid()
      modifies this
      ensures Valid()
      ensures Snapshot() == if id.None? then old(Snapshot()) else AfterDecommission(old(Snapshot()), tenant, id.value, deletes)
    {
      if id.None? {
        return;
      }
      var mgmt := id.value;
      if mgmt !in workers {
        return;
      }
      var w := workers[mgmt];
      if w.gateway.tenant != tenant {
        return;
      }
      workers := workers - {mgmt};
      var _ := StopWorker(w);
      var _ := DeleteGateway(w.row, deletes);
      gauge := gauge - 1;
    }

    /** Stop every worker, in any order; no status is written. */
    method StopAll() returns (ghost order: seq<string>)
      requires Valid()
      modifies this`conns, this`workers
      ensures Valid() && Enumerates(order, old(workers).Keys)
      ensures Snapshot() == HaltEach(old(Snapshot()), order)
    {
      var left := workers.Keys;
      order := [];
      while left != {}
        invariant Valid() && left <= workers.Keys == old(workers).Keys
        invariant Enumerates(order, old(workers).Keys - left)
        invariant Snapshot() == HaltEach(old(Snapshot()), order)
      {
        var m :| m in left;
        assert (order + [m])[..|order|] == order;
        HaltWorker(m);
        order := order + [m];
        left := left - {m};
      }
    }

    // ----- sensors -----

    method AddSensor(mgmt: string, sensor: Sensor, canRead: bool, creates: bool) returns (result: Result<nat>)
      requires Valid()
      modifies this
      ensures Valid() && Snapshot() == AfterAddSensor(old(Snapshot()), mgmt, sensor, canRead, creates)
      ensures result == AddSensorResult(old(Snapshot()), mgmt, sensor, canRead, creates)
    {
      if sensor.min >= sensor.max {
        return Err(InvalidRange);
      }
      if !canRead {
        return Err(StoreFailed);
      }
      var row := RowOf(store, mgmt);
      if row.None? {
        return Err(GatewayNotFound);
      }
      if !creates || SensorTaken(store, sensor.id) {
        return Err(StoreFailed);
      }
      var id := store.nextSensor;
      store := store.(sensors := store.sensors[id := Filed(row.value, sensor)], nextSensor := id + 1);
      if mgmt in workers {
        var w := workers[mgmt];
        w := w.(sensors := w.sensors + [Attached(id, sensor)]);
        w := w.(generators := w.generators + [NewGenerator(sensor)]);
        workers := workers[mgmt := w];
      }
      result := Ok(id);
    }

    method DeleteSensor(sensor: string, canRead: bool, deletes: bool) returns (result: Result<()>)
      requires Valid()
      modifies this
      ensures Valid() && Snapshot() == AfterDeleteSensor(old(Snapshot()), sensor, canRead, deletes)
      ensures result.Ok? <==> canRead && deletes && IdOf(old(store), sensor).Some?
      ensures result == Err(SensorNotFound) <==> canRead && IdOf(old(store), sensor).None?
    {
      if !canRead {
        return Err(StoreFailed);
      }
      var id := IdOf(store, sensor);
      if id.None? {
        return Err(SensorNotFound);
      }
      if !deletes {
        return Err(StoreFailed);
      }
      deleted := deleted + [(store.sensors[id.value].row, id.value)];
      store := store.(sensors := store.sensors - {id.value});
      result := Ok(());
    }

    /** Queue an outlier for the worker of the sensor's gateway. The map is walked in
        any order; the worker found is the only one of that row. */
    method InjectSensorOutlier(sensor: string, value: Option<real>, canRead: bool) returns (result: Result<string>)
      requires StoreOk(store) && IndexOk(Snapshot())
      modifies this`workers
      ensures InjectResult(old(Snapshot()), sensor, canRead, result)
      ensures workers == if result.Ok? then
        old(workers)[result.value := old(workers)[result.value].(
          outliers := old(workers)[result.value].outliers + [OutlierCommand(sensor, value)])] else old(workers)
    {
      if !canRead {
        return Err(StoreFailed);
      }
      var id := IdOf(store, sensor);
      if id.None? {
        return Err(SensorNotFound);
      }
      var row := store.sensors[id.value].row;
      var left := workers.Keys;
      var found: Option<string> := None;
      while left != {} && found.None?
        invariant left <= workers.Keys
        invariant found.None? ==> forall m :: m in workers && workers[m].row == row ==> m in left
        invariant found.Some? ==> found.value in workers && workers[found.value].row == row
      {
        var m :| m in left;
        left := left - {m};
        if workers[m].row == row {
          found := Some(m);
        }
      }
      if found.None? {
        return Err(GatewayNotFound);
      }
      OnlyServer(Snapshot(), found.value, row);
      var w := workers[found.value];
      if |w.outliers| >= CHANNEL_CAPACITY {
        return Err(ChannelFull);
      }
      workers := workers[found.value := w.(outliers := w.outliers + [OutlierCommand(sensor, value)])];
      result := Ok(found.value);
    }

    // ----- restoration -----

    /** At start-up: a worker for every provisioned gateway that can be restored. */
    method RestoreAll(lists: bool, c: Recovery) returns (result: Result<()>)
      requires Valid()
      modifies this
      ensures Valid() && Snapshot() == AfterRestoreAll(old(Snapshot()), lists, c)
      ensures result.Ok? <==> lists
    {
      if !lists {
        return Err(StoreFailed);
      }
      var gateways := AllGateways();
      for i := 0 to |gateways|
        invariant Valid() && Snapshot() == RestoreEach(old(Snapshot()), gateways[..i], c)
      {
        assert gateways[..i + 1][..i] == gateways[..i];
        var (row, gw) := gateways[i];
        if gw.provisioned {
          var _ := RestoreGateway(row, gw, c);
        }
      }
      assert gateways[..|gateways|] == gateways;
      result := Ok(());
    }

    /** The stored gateways, in the order of their rows. */
    method AllGateways() returns (gateways: seq<(nat, Gateway)>)
      ensures gateways == ListGateways(store)
    {
      gateways := [];
      for n := 0 to store.nextGateway
        invariant gateways == GatewaysBelow(store, n)
      {
        if n in store.gateways {
          gateways := gateways + [(n, store.gateways[n])];
        }
      }
    }

    method RestoreGateway(row: nat, gw: Gateway, c: Recovery) returns (result: Result<()>)
      requires Valid() && gw.provisioned
      modifies this
      ensures Valid() && Snapshot() == RestoreOne(old(Snapshot()), row, gw, c)
      ensures result.Ok? <==> c.lists(row) && c.connects(row)
    {
      if !c.lists(row) {
        return Err(StoreFailed);
      }
      var sensors := SensorsOf(row);
      var conn := Connect(gw.mgmt, c.connects(row));
      if conn.None? {
        return Err(ConnectFailed);
      }
      LaunchWorker(row, gw, sensors, conn.value, c.marks(row));
      result := Ok(());
    }
  }
}
