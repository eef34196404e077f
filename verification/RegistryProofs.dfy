/** The worker map is an index over the store, in every reachable state. */
module RegistryProofs {
  import opened Domain
  import opened RegistryModel

  // ----- the invariant -----

  ghost predicate HasRow(s: State, t: nat, row: nat, id: Ident) {
    row in s.rows && s.rows[row].owner == OfOp(t) && s.rows[row].id == id
  }

  ghost predicate OwnsRow(s: State, t: nat, row: nat) {
    row in s.rows && s.rows[row].owner == OfOp(t)
  }

  ghost predicate HasConn(s: State, t: nat, conn: nat, subCloses: nat) {
    conn < |s.conns| && s.conns[conn] == Conn(OfOp(t), subCloses, 0, 0)
  }

  ghost predicate HasRows(s: State, t: nat, todo: seq<(nat, Ident)>) {
    && (forall i :: 0 <= i < |todo| ==> HasRow(s, t, todo[i].0, todo[i].1))
    && (forall i, j :: 0 <= i < j < |todo| ==> todo[i].0 != todo[j].0)
  }

  ghost predicate Without(row: nat, todo: seq<(nat, Ident)>) {
    forall i :: 0 <= i < |todo| ==> todo[i].0 != row
  }

  ghost predicate HasNext(s: State, t: nat, next: Next) {
    next.Resume? ==> HasRows(s, t, next.todo)
  }

  /** A worker between its removal from the map and the deletion of its row. */
  ghost predicate Leaving(s: State, t: nat, w: nat, purpose: Purpose) {
    && w < |s.pool|
    && (purpose != ForStop ==> s.pool[w].life == Unregistered && HasRow(s, t, s.pool[w].row, s.pool[w].id))
  }

  /** What thread t relies on at its current step. */
  ghost predicate OpInv(s: State, t: nat)
    requires t < |s.ops|
  {
    match s.ops[t]
    case Connecting(row, id) => HasRow(s, t, row, id)
    case Listing(row, id, conn) => HasRow(s, t, row, id) && HasConn(s, t, conn, 0)
    case CloseSub(row, conn) => OwnsRow(s, t, row) && HasConn(s, t, conn, 0)
    case CloseNc(row, conn) => OwnsRow(s, t, row) && HasConn(s, t, conn, 1)
    case Undoing(row) => OwnsRow(s, t, row)
    case Launching(row, id, conn, next) =>
      && HasRow(s, t, row, id) && HasConn(s, t, conn, 0)
      && HasNext(s, t, next) && (next.Resume? ==> Without(row, next.todo))
    case Registering(w, next) =>
      && w < |s.pool| && s.pool[w].life == Launched
      && HasRow(s, t, s.pool[w].row, s.pool[w].id)
      && HasNext(s, t, next)
      && (next.Resume? ==> Without(s.pool[w].row, next.todo))
    case Counting(next) => HasNext(s, t, next)
    case Marking(next) => HasNext(s, t, next)
    case RestoreNext(todo) => HasRows(s, t, todo)
    case RestoreListing(row, id, todo) => HasRow(s, t, row, id) && HasRows(s, t, todo) && Without(row, todo)
    case RestoreConnecting(row, id, todo) => HasRow(s, t, row, id) && HasRows(s, t, todo) && Without(row, todo)
    case CancelPump(w, purpose) => Leaving(s, t, w, purpose)
    case Stopping(w, stage, purpose) =>
      && Leaving(s, t, w, purpose)
      && (Closing(stage) ==> s.pool[w].closer == Some(t))
    case DeletingRow(w, purpose) => Leaving(s, t, w, purpose) && purpose != ForStop
    case SwappingOn(w) => w < |s.pool|
    case _ => true
  }

  predicate Closing(stage: StopStage) {
    stage == ClosePublisher || stage == CloseConnection
  }

  ghost predicate OpsInv(s: State) {
    forall t :: 0 <= t < |s.ops| ==> OpInv(s, t)
  }

  ghost predicate StoreInv(s: State) {
    && (forall r :: r in s.rows ==> r < s.nextRow)
    && (forall q, r :: q in s.rows && r in s.rows && s.rows[q].id.mgmt == s.rows[r].id.mgmt ==> q == r)
  }

  /** A registered worker sits under its own management ID and its row is live. */
  ghost predicate Indexed(s: State, mgmt: string)
    requires mgmt in s.workers
  {
    var w := s.workers[mgmt];
    && w < |s.pool|
    && s.pool[w].id.mgmt == mgmt
    && s.pool[w].life == Registered
    && s.pool[w].row in s.rows
    && s.rows[s.pool[w].row].id == s.pool[w].id
    && s.rows[s.pool[w].row].owner == OfWorker(w)
  }

  ghost predicate MapInv(s: State) {
    forall m :: m in s.workers ==> Indexed(s, m)
  }

  /** How often the thread that won a worker's close has closed each of the two. */
  predicate ClosedBy(op: Op, w: nat, c: Conn) {
    if op.Stopping? && op.worker == w && op.stage == ClosePublisher then c.pubCloses == 0 && c.ncCloses == 0
    else if op.Stopping? && op.worker == w && op.stage == CloseConnection then c.pubCloses == 1 && c.ncCloses == 0
    else c.pubCloses == 1 && c.ncCloses == 1
  }

  ghost predicate WorkerInv(s: State, w: nat)
    requires w < |s.pool|
  {
    var x := s.pool[w];
    && x.conn < |s.conns|
    && s.conns[x.conn].owner == OfWorker(w)
    && s.conns[x.conn].subCloses == (if x.pumpExited then 1 else 0)
    && (match x.closer
        case None => !x.publisherClosed && s.conns[x.conn].pubCloses == 0 && s.conns[x.conn].ncCloses == 0
        case Some(t) => x.publisherClosed && t < |s.ops| && ClosedBy(s.ops[t], w, s.conns[x.conn]))
    && x.unregistered == (if x.life == Unregistered then 1 else 0)
    && (x.life == Registered ==> x.id.mgmt in s.workers && s.workers[x.id.mgmt] == w)
  }

  ghost predicate WorkersInv(s: State) {
    forall w :: 0 <= w < |s.pool| ==> WorkerInv(s, w)
  }

  predicate HoldsAny(op: Op) {
    op.Listing? || op.CloseSub? || op.CloseNc? || op.Launching?
  }

  predicate Holds(op: Op, conn: nat) {
    HoldsAny(op) && op.conn == conn
  }

  /** Each connection answers to one thread, to one worker, or was closed once. */
  ghost predicate ConnInv(s: State, c: nat)
    requires c < |s.conns|
  {
    match s.conns[c].owner
    case Orphan => s.conns[c].subCloses == 1 && s.conns[c].ncCloses == 1 && s.conns[c].pubCloses == 0
    case OfOp(t) => t < |s.ops| && Holds(s.ops[t], c)
    case OfWorker(w) => w < |s.pool| && s.pool[w].conn == c
  }

  ghost predicate ConnsInv(s: State) {
    forall c :: 0 <= c < |s.conns| ==> ConnInv(s, c)
  }

  ghost predicate FreshInv(s: State) {
    s.phase == Fresh ==>
      && s.pool == [] && s.conns == [] && s.workers == map[]
      && (forall r :: r in s.rows ==> s.rows[r].owner == Orphan)
      && (forall t :: 0 <= t < |s.ops| ==> s.ops[t].Unregistering? || s.ops[t].Done?)
  }

  ghost predicate Inv(s: State) {
    && StoreInv(s) && MapInv(s) && WorkersInv(s) && ConnsInv(s) && OpsInv(s) && FreshInv(s)
  }

  // ----- what a step of one thread leaves alone -----

  ghost predicate SameOps(s: State, s': State, t: nat) {
    |s'.ops| == |s.ops| && forall u :: 0 <= u < |s.ops| && u != t ==> s'.ops[u] == s.ops[u]
  }

  ghost predicate SameRows(s: State, s': State, t: nat) {
    forall r, u: nat :: r in s.rows && s.rows[r].owner == OfOp(u) && u != t ==>
      r in s'.rows && s'.rows[r] == s.rows[r]
  }

  ghost predicate SameConns(s: State, s': State, t: nat) {
    && |s.conns| <= |s'.conns|
    && forall c, u: nat :: 0 <= c < |s.conns| && s.conns[c].owner == OfOp(u) && u != t ==> s'.conns[c] == s.conns[c]
  }

  ghost predicate SameWorkers(s: State, s': State, t: nat) {
    && |s.pool| <= |s'.pool|
    && forall w :: 0 <= w < |s.pool| ==>
         && s'.pool[w].row == s.pool[w].row && s'.pool[w].id == s.pool[w].id
         && (s'.pool[w].closer == s.pool[w].closer || s.pool[w].closer == None)
         && (s.pool[w].life == Unregistered ==> s'.pool[w].life == Unregistered)
         && (s.pool[w].life == Launched && s'.pool[w].life != Launched ==> HasRow(s, t, s.pool[w].row, s.pool[w].id))
  }

  ghost predicate Apart(s: State, s': State, t: nat) {
    SameOps(s, s', t) && SameRows(s, s', t) && SameConns(s, s', t) && SameWorkers(s, s', t)
  }

  lemma OtherOp(s: State, s': State, t: nat, u: nat)
    requires t < |s.ops| && u < |s.ops| && u != t && OpInv(s, u)
    requires Apart(s, s', t)
    ensures OpInv(s', u)
  {
    assert s'.ops[u] == s.ops[u];
  }

  lemma OtherOps(s: State, s': State, t: nat)
    requires OpsInv(s) && t < |s.ops| && Apart(s, s', t) && OpInv(s', t)
    ensures OpsInv(s')
  {
    forall u | 0 <= u < |s'.ops| && u != t ensures OpInv(s', u) {
      OtherOp(s, s', t, u);
    }
  }
}
