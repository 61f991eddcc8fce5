/**
 The seat-activation protocol of the activation repository as a state machine over database
 statements. Any number of transactions run at once under READ COMMITTED: an uncommitted insert
 is invisible to everybody else, `SELECT ... FOR UPDATE` and `UPDATE licenses` need the license
 row's lock, and the two release statements touch `activations` only and take no license lock.
 One `Step` is one statement (or one purely local decision) of one transaction.
 */
module SeatProtocol {
  import opened Common
  import opened Domain

  type Id = string

  const UNLIMITED := -1

  datatype LicenseRow = LicenseRow(
    tenant: Id, key: Id, seatsTotal: int, status: Status, expiresAt: Option<Time>,
    deleted: bool, usageUsed: int, usageLimit: Option<int>)

  datatype Activation = Activation(license: Id, tenant: Id, client: Id, active: bool)

  datatype Usage = Usage(license: Id, units: int)

  /** What `ActivateWithLock` is called with, apart from the generated record id. */
  datatype Request = Request(tenant: Id, key: Id, client: Id)

  /** The columns read by the locking query. */
  datatype Snapshot = Snapshot(lid: Id, seatsTotal: int, status: Status, expiresAt: Option<Time>)

  datatype Error = NotFound | LicenseRevoked | LicenseExpired | SeatLimitReached | InsertFailed | Aborted

  datatype Outcome =
    | Fresh(id: Id, lid: Id, remaining: int)
    | Repeat(id: Id, lid: Id, remaining: int)
    | Recorded(total: int, limit: Option<int>)
    | Failed(error: Error)

  /** The program counter of a transaction with the local variables live at that point. */
  datatype Tx =
    | Begun(req: Request)
    | Locked(req: Request, snap: Snapshot)
    | Checked(req: Request, snap: Snapshot, at: Time)
    | Counted(req: Request, snap: Snapshot, at: Time, count: nat, existing: Option<Id>)
    | Inserted(req: Request, snap: Snapshot, at: Time, count: nat, remaining: int)
    | Using(lid: Id, units: int, total: int)
    | Ended(outcome: Outcome)

  /**
   `txs` is keyed by the id that the call generated for the record it may insert: generated ids
   are distinct, so that id also names the transaction.
   */
  datatype State = State(
    now: Time,
    licenses: map<Id, LicenseRow>,
    acts: map<Id, Activation>,
    usage: map<Id, Usage>,
    locks: map<Id, Id>,
    txs: map<Id, Tx>)

  datatype Step =
    | Tick(delta: nat)
    | Begin(tx: Id, req: Request)
    | LockRow(tx: Id, lid: Id)
    | LockMiss(tx: Id)
    | CheckRow(tx: Id)
    | CountSeats(tx: Id, existing: Option<Id>)
    | Decide(tx: Id)
    | Commit(tx: Id)
    | Abort(tx: Id)
    | Release(id: Id)
    | ReleaseByClient(tenant: Id, key: Id, client: Id)
    | CreateLicense(lid: Id, row: LicenseRow)
    | Revoke(tenant: Id, key: Id)
    | Update(tenant: Id, key: Id, seats: int, status: Status, expiresAt: Option<Time>)
    | UseBegin(tx: Id, lid: Id, units: int)
    | UseCommit(tx: Id)

  /* ---------- queries ---------- */

  predicate Matches(row: LicenseRow, tenant: Id, key: Id) {
    row.tenant == tenant && row.key == key && !row.deleted
  }

  /** Ids of the committed active rows of a license. */
  function ActiveOf(acts: map<Id, Activation>, lid: Id): set<Id> {
    set a | a in acts && acts[a].license == lid && acts[a].active
  }

  function ActiveCount(s: State, lid: Id): nat {
    |ActiveOf(s.acts, lid)|
  }

  predicate IsActiveFor(acts: map<Id, Activation>, a: Id, lid: Id, client: Id) {
    a in acts && acts[a].license == lid && acts[a].client == client && acts[a].active
  }

  ghost predicate HasActive(acts: map<Id, Activation>, lid: Id, client: Id) {
    exists a :: IsActiveFor(acts, a, lid, client)
  }

  predicate IsExpired(expiresAt: Option<Time>, now: Time) {
    expiresAt.Some? && now > expiresAt.value
  }

  /** The license row a transaction has locked, if any. */
  function Holds(tx: Tx): Option<Id> {
    match tx
    case Locked(_, snap) => Some(snap.lid)
    case Checked(_, snap, _) => Some(snap.lid)
    case Counted(_, snap, _, _, _) => Some(snap.lid)
    case Inserted(_, snap, _, _, _) => Some(snap.lid)
    case Using(lid, _, _) => Some(lid)
    case _ => None
  }

  predicate IsActivating(tx: Tx) {
    tx.Begun? || tx.Locked? || tx.Checked? || tx.Counted? || tx.Inserted?
  }

  /** Total units recorded for a license. */
  ghost function UsageSum(usage: map<Id, Usage>, lid: Id): int
    decreases |usage|
  {
    if usage == map[] then 0 else
      var u :| u in usage;
      (if usage[u].license == lid then usage[u].units else 0) + UsageSum(usage - {u}, lid)
  }

  /* ---------- steps ---------- */

  /** `remaining` as computed before the insert. */
  function RemainingAfterInsert(seatsTotal: int, count: int): int {
    if seatsTotal == UNLIMITED then UNLIMITED else seatsTotal - count - 1
  }

  /** `remaining` as reported when the client already holds a seat. */
  function RemainingForRepeat(seatsTotal: int, count: int): int {
    if seatsTotal == UNLIMITED then UNLIMITED else seatsTotal - count
  }

  /** Ends a transaction: commit or rollback both free the row lock. */
  function End(s: State, tx: Id, outcome: Outcome): State
    requires tx in s.txs
  {
    var held := Holds(s.txs[tx]);
    s.(txs := s.txs[tx := Ended(outcome)],
       locks := if held.Some? then s.locks - {held.value} else s.locks)
  }

  ghost predicate Enabled(s: State, step: Step) {
    match step
    case Tick(_) => true
    case Begin(t, req) =>
      t !in s.txs && t !in s.acts
    case LockRow(t, lid) =>
      && t in s.txs && s.txs[t].Begun?
      && lid in s.licenses && lid !in s.locks
      && Matches(s.licenses[lid], s.txs[t].req.tenant, s.txs[t].req.key)
    case LockMiss(t) =>
      && t in s.txs && s.txs[t].Begun?
      && forall l | l in s.licenses :: !Matches(s.licenses[l], s.txs[t].req.tenant, s.txs[t].req.key)
    case CheckRow(t) => t in s.txs && s.txs[t].Locked?
    case CountSeats(t, existing) =>
      && t in s.txs && s.txs[t].Checked?
      && (existing.None? ==> !HasActive(s.acts, s.txs[t].snap.lid, s.txs[t].req.client))
      && (existing.Some? ==> IsActiveFor(s.acts, existing.value, s.txs[t].snap.lid, s.txs[t].req.client))
    case Decide(t) => t in s.txs && s.txs[t].Counted?
    case Commit(t) => t in s.txs && s.txs[t].Inserted?
    case Abort(t) => t in s.txs && !s.txs[t].Ended?
    case Release(_) => true
    case ReleaseByClient(_, _, _) => true
    case CreateLicense(lid, row) =>
      && lid !in s.licenses && row.seatsTotal >= UNLIMITED && row.usageUsed == 0 && !row.deleted
      && forall l | l in s.licenses :: s.licenses[l].key != row.key
    case Revoke(tenant, key) =>
      forall l | l in s.licenses && Matches(s.licenses[l], tenant, key) :: l !in s.locks
    case Update(tenant, key, seats, _, _) =>
      && seats >= UNLIMITED
      && forall l | l in s.licenses && Matches(s.licenses[l], tenant, key) :: l !in s.locks
    case UseBegin(t, lid, units) =>
      t !in s.txs && t !in s.usage && lid in s.licenses && !s.licenses[lid].deleted && lid !in s.locks && units > 0
    case UseCommit(t) => t in s.txs && s.txs[t].Using? && s.txs[t].lid in s.licenses
  }

  ghost function Apply(s: State, step: Step): State
    requires Enabled(s, step)
  {
    match step
    case Tick(delta) => s.(now := s.now + delta)
    case Begin(t, req) => s.(txs := s.txs[t := Begun(req)])
    case LockRow(t, lid) =>
      var row := s.licenses[lid];
      s.(locks := s.locks[lid := t],
         txs := s.txs[t := Locked(s.txs[t].req, Snapshot(lid, row.seatsTotal, row.status, row.expiresAt))])
    case LockMiss(t) => End(s, t, Failed(NotFound))
    case CheckRow(t) =>
      var tx := s.txs[t];
      if tx.snap.status != Active then End(s, t, Failed(LicenseRevoked))
      else if IsExpired(tx.snap.expiresAt, s.now) then End(s, t, Failed(LicenseExpired))
      else s.(txs := s.txs[t := Checked(tx.req, tx.snap, s.now)])
    case CountSeats(t, existing) =>
      var tx := s.txs[t];
      s.(txs := s.txs[t := Counted(tx.req, tx.snap, tx.at, ActiveCount(s, tx.snap.lid), existing)])
    case Decide(t) => ApplyDecide(s, t)
    case Commit(t) =>
      var tx := s.txs[t];
      var row := Activation(tx.snap.lid, tx.req.tenant, tx.req.client, true);
      End(s, t, Fresh(t, tx.snap.lid, tx.remaining)).(acts := s.acts[t := row])
    case Abort(t) => End(s, t, Failed(Aborted))
    case Release(id) => s.(acts := ReleaseRows(s.acts, {id}))
    case ReleaseByClient(tenant, key, client) =>
      s.(acts := ReleaseRows(s.acts, ClientRows(s, tenant, key, client)))
    case CreateLicense(lid, row) => s.(licenses := s.licenses[lid := row])
    case Revoke(tenant, key) =>
      s.(licenses := map l | l in s.licenses ::
        if Matches(s.licenses[l], tenant, key) then s.licenses[l].(status := Revoked) else s.licenses[l])
    case Update(tenant, key, seats, status, expiresAt) =>
      s.(licenses := map l | l in s.licenses ::
        if Matches(s.licenses[l], tenant, key)
        then s.licenses[l].(seatsTotal := seats, status := status, expiresAt := expiresAt) else s.licenses[l])
    case UseBegin(t, lid, units) =>
      s.(locks := s.locks[lid := t],
         txs := s.txs[t := Using(lid, units, s.licenses[lid].usageUsed + units)])
    case UseCommit(t) =>
      var tx := s.txs[t];
      var row := s.licenses[tx.lid];
      End(s, t, Recorded(tx.total, row.usageLimit)).(
        licenses := s.licenses[tx.lid := row.(usageUsed := tx.total)],
        usage := s.usage[t := Usage(tx.lid, tx.units)])
  }

  /** The local branch after the usage statistics: repeat, seat limit, or the INSERT itself. */
  ghost function ApplyDecide(s: State, t: Id): State
    requires t in s.txs && s.txs[t].Counted?
  {
    var tx := s.txs[t];
    var total := tx.snap.seatsTotal;
    if tx.existing.Some? then
      End(s, t, Repeat(tx.existing.value, tx.snap.lid, RemainingForRepeat(total, tx.count)))
    else if total != UNLIMITED && tx.count >= total then
      End(s, t, Failed(SeatLimitReached))
    else if UniqueViolation(s, t) then
      End(s, t, Failed(InsertFailed))
    else
      s.(txs := s.txs[t := Inserted(tx.req, tx.snap, tx.at, tx.count, RemainingAfterInsert(total, tx.count))])
  }

  /** The INSERT hits the primary key or the partial unique index on (license, client). */
  ghost predicate UniqueViolation(s: State, t: Id)
    requires t in s.txs && s.txs[t].Counted?
  {
    t in s.acts || HasActive(s.acts, s.txs[t].snap.lid, s.txs[t].req.client)
  }

  /** The rows `ReleaseByClient` updates. */
  function ClientRows(s: State, tenant: Id, key: Id, client: Id): set<Id> {
    set a | a in s.acts && s.acts[a].client == client && s.acts[a].active
            && s.acts[a].license in s.licenses && Matches(s.licenses[s.acts[a].license], tenant, key)
  }

  function ReleaseRows(acts: map<Id, Activation>, rows: set<Id>): map<Id, Activation> {
    map a | a in acts :: if a in rows then acts[a].(active := false) else acts[a]
  }

  /** A step that is not enabled is blocked: the state does not change. */
  ghost function Exec(s: State, step: Step): State {
    if Enabled(s, step) then Apply(s, step) else s
  }

  /** Every sequence of steps is a run; scheduling is arbitrary. */
  ghost function Run(s: State, steps: seq<Step>): State
    decreases |steps|
  {
    if steps == [] then s else Run(Exec(s, steps[0]), steps[1..])
  }

  /** Any license table with unique keys, nothing activated, nothing running. */
  ghost predicate Init(s: State) {
    && s.acts == map[] && s.usage == map[] && s.locks == map[] && s.txs == map[]
    && UniqueKeys(s.licenses)
    && forall l | l in s.licenses :: s.licenses[l].usageUsed == 0 && s.licenses[l].seatsTotal >= UNLIMITED
  }

  predicate UniqueKeys(licenses: map<Id, LicenseRow>) {
    forall l, m | l in licenses && m in licenses && licenses[l].key == licenses[m].key :: l == m
  }
}
