/**
 The whole server as far as licenses depend on it: the license table and cache, plans, tenants and what the
 product cache does to the second level they all share. What the administrative operations write, what
 activation and warm-up refill, and what validation then sees. Operations are serial; the database may refuse
 any call.
 */
module LicenseSystem {
  import opened Common
  import opened Domain
  import opened Lru
  import opened LicenseStore
  import opened Features
  import Plans = PlanSystem
  import Tenants = TenantSystem
  import Runs = LicenseStoreRuns

  datatype Config = Config(store: LicenseStore.Config, plans: Plans.PlanConfig, tenants: Tenants.TenantConfig, ttlProduct: Time)

  /** Keys are unique over all tenants, so the table is a map from key to row. */
  type Table = map<string, License>

  datatype Sys = Sys(rows: Table, store: Store, plans: Plans.State, tenants: Tenants.State)

  /** The columns of a license; the resolved features, the legacy product and the grace days have none. */
  function Stored(l: License): License {
    l.(finalFeatures := [], product := "", graceDays := 0)
  }

  function FindByKey(rows: Table, t: string, k: string): Option<License> {
    if k in rows && rows[k].tenant == t then Some(rows[k]) else None
  }

  function RevokeRow(rows: Table, t: string, k: string): Table {
    if FindByKey(rows, t, k).Some? then rows[k := rows[k].(status := Revoked)] else rows
  }

  /** An update that names no row of its tenant changes nothing and is not an error. */
  function UpdateRow(rows: Table, l: License): Table {
    if FindByKey(rows, l.tenant, l.key).Some? then rows[l.key := Stored(l).(id := rows[l.key].id)] else rows
  }

  /** `final` is the order in which the set of features was listed; `planOk` says whether the plan table answered. */
  datatype Op =
    | CreateLicense(l: License, freshId: string, final: seq<string>, planOk: bool, dbOk: bool, now: Time)
    | UpdateLicense(l: License, final: seq<string>, planOk: bool, dbOk: bool, now: Time)
    | RevokeLicense(tenant: string, key: string, execOk: bool, findOk: bool, now: Time)
    | Activate(tenant: string, key: string, dbOk: bool, committed: bool, now: Time)
    | Deactivate(tenant: string, key: string, dbOk: bool, released: bool, now: Time)
    | Validate(tenant: string, key: string, now: Time)
    | ValidatePublic(key: string, now: Time)
    | WarmUp(recent: seq<License>, now: Time)
    | InvalidateTenant(tenant: string)
    | PlanOp(plan: Plans.Op)
    | TenantOp(tenantOp: Tenants.Op)
    | PutProduct(tenant: string, code: string, now: Time)
    | DropProduct(tenant: string, code: string)
    | Background(loss: Runs.Op)

  predicate Acceptable(l: License) {
    l.tenant != "" && l.key != "" && ValidateHardRules(l).None?
  }

  predicate NamesPlan(l: License) {
    l.kind == PlanKind && l.planId.Some?
  }

  /** Whether the second level answers, with whatever, under the key of the license's plan. */
  predicate PlanHit(store: Store, l: License, now: Time)
    requires NamesPlan(l)
  {
    RemoteHit(store, Plans.PlanPlace(l.tenant, l.planId.value), now)
  }

  /** The plan a license is resolved with, and the plan cache after looking it up. */
  function PlanFor(cfg: Config, s: Sys, l: License, planOk: bool, now: Time): (Plans.State, Option<Plan>) {
    if NamesPlan(l)
    then Plans.Resolve(cfg.plans, s.plans, l.tenant, l.planId.value, PlanHit(s.store, l, now), planOk, now)
    else (s.plans, None)
  }

  /** A plan read from the table is stored in the second level too. */
  function PlanElsewhere(cfg: Config, s: Sys, l: License, planOk: bool, now: Time): Elsewhere {
    if NamesPlan(l) && Plans.Refills(cfg.plans, s.plans, l.tenant, l.planId.value, PlanHit(s.store, l, now), planOk, now)
    then Stores([Plans.PlanPlace(l.tenant, l.planId.value)], cfg.plans.ttl, now)
    else Nothing
  }

  function ProductPlace(tenant: string, code: string): Place {
    Place(tenant, "product:" + code)
  }

  /** The license as it goes into the cache. */
  function Settled(l: License, plan: Option<Plan>, final: seq<string>): License {
    if l.kind == PlanKind && l.planId.Some? && plan.None? then l
    else
      var r := l.(finalFeatures := final);
      if plan.Some? && plan.value.productId.Some?
      then r.(productId := plan.value.productId, product := plan.value.productId.value) else r
  }

  /** The license a create or update submits. */
  function Submitted(op: Op): License
    requires op.CreateLicense? || op.UpdateLicense?
  {
    if op.CreateLicense? then Identified(op.l, op.freshId) else op.l
  }

  /** The copy a create or update puts into the cache. */
  function SavedCopy(cfg: Config, s: Sys, op: Op): License
    requires op.CreateLicense? || op.UpdateLicense?
  {
    Settled(Submitted(op), PlanFor(cfg, s, Submitted(op), op.planOk, op.now).1, op.final)
  }

  predicate Creates(s: Sys, op: Op) {
    op.CreateLicense? && Acceptable(op.l) && op.dbOk && op.l.key !in s.rows
  }

  predicate Updates(op: Op) {
    op.UpdateLicense? && Acceptable(op.l) && op.dbOk
  }

  /** The call returned without error. */
  predicate Revokes(s: Sys, op: Op) {
    op.RevokeLicense? && op.execOk && op.findOk && FindByKey(s.rows, op.tenant, op.key).Some?
  }

  function Identified(l: License, freshId: string): License {
    if l.id == "" then l.(id := freshId) else l
  }

  /** Cache first, then the table, which refills the cache. */
  function ResolveLicense(cfg: Config, s: Sys, t: string, k: string, dbOk: bool, now: Time): (Store, Option<License>) {
    var (store, cached) := Fetch(cfg.store, s.store, t, k, now);
    if cached.Some? then (store, cached)
    else if dbOk && FindByKey(s.rows, t, k).Some? then (Put(cfg.store, store, t, k, s.rows[k], now), Some(s.rows[k]))
    else (store, None)
  }

  /** What the activation service checks on the license it resolved, before the transaction. */
  predicate MayActivate(l: License, now: Time) {
    && !l.IsRevoked() && !l.IsExpired(now) && !l.IsInGracePeriod(now)
    && (l.seatsTotal == -1 || l.seatsUsed < l.seatsTotal)
  }

  function RowsAfter(s: Sys, op: Op): Table {
    match op
    case CreateLicense(l, _, _, _, _, _) => if Creates(s, op) then s.rows[l.key := Stored(Submitted(op))] else s.rows
    case UpdateLicense(l, _, _, _, _) => if Updates(op) then UpdateRow(s.rows, l) else s.rows
    case RevokeLicense(t, k, execOk, _, _) => if execOk then RevokeRow(s.rows, t, k) else s.rows
    case _ => s.rows
  }

  /** The cache after a license has been resolved with its plan and put there. */
  function Saved(cfg: Config, s: Sys, op: Op): Store
    requires op.CreateLicense? || op.UpdateLicense?
  {
    Put(cfg.store, Disturbed(s.store, PlanElsewhere(cfg, s, Submitted(op), op.planOk, op.now)),
        op.l.tenant, op.l.key, SavedCopy(cfg, s, op), op.now)
  }

  function StoreAfter(cfg: Config, s: Sys, op: Op): Store {
    match op
    case CreateLicense(_, _, _, _, _, _) => if Creates(s, op) then Saved(cfg, s, op) else s.store
    case UpdateLicense(_, _, _, _, _) => if Updates(op) then Saved(cfg, s, op) else s.store
    case RevokeLicense(t, k, _, _, now) =>
      if Revokes(s, op) then Put(cfg.store, s.store, t, k, s.rows[k].(status := Revoked), now) else s.store
    case Activate(t, k, dbOk, committed, now) =>
      var (store, found) := ResolveLicense(cfg, s, t, k, dbOk, now);
      if found.Some? && MayActivate(found.value, now) && committed then Drop(store, t, k) else store
    case Deactivate(t, k, dbOk, released, now) =>
      var (store, found) := ResolveLicense(cfg, s, t, k, dbOk, now);
      if found.Some? && released then Drop(store, t, k) else store
    case Validate(t, k, now) => Fetch(cfg.store, s.store, t, k, now).0
    case ValidatePublic(k, now) => FetchGlobal(cfg.store, s.store, k, now).0
    case WarmUp(recent, now) => WarmAll(cfg.store, s.store, recent, now)
    case InvalidateTenant(t) => DropTenant(s.store, t)
    case PlanOp(p) => Disturbed(s.store, Plans.OnSecondLevel(cfg.plans, s.plans, p))
    case TenantOp(p) => Tenants.OnLicenses(cfg.tenants, s.tenants, p, s.store)
    case PutProduct(t, code, now) =>
      if t == "" || code == "" then s.store else Disturbed(s.store, Stores([ProductPlace(t, code)], cfg.ttlProduct, now))
    case DropProduct(t, code) => Disturbed(s.store, Forgets([ProductPlace(t, code)]))
    case Background(loss) => if loss.Cleanup? || loss.LoseLocal? || loss.LoseRemote? then Runs.Exec(cfg.store, s.store, loss) else s.store
  }

  function PlansAfter(cfg: Config, s: Sys, op: Op): Plans.State {
    if op.PlanOp? then Plans.Exec(cfg.plans, s.plans, op.plan)
    else if Creates(s, op) || Updates(op) then PlanFor(cfg, s, Submitted(op), op.planOk, op.now).0
    else s.plans
  }

  function TenantsAfter(cfg: Config, s: Sys, op: Op): Tenants.State {
    if op.TenantOp? then Tenants.Exec(cfg.tenants, s.tenants, op.tenantOp) else s.tenants
  }

  function Exec(cfg: Config, s: Sys, op: Op): Sys {
    Sys(RowsAfter(s, op), StoreAfter(cfg, s, op), PlansAfter(cfg, s, op), TenantsAfter(cfg, s, op))
  }

  /** Generated ids are not empty, and the plan cache reads the second level there is. */
  predicate PossiblePlan(store: Store, p: Plans.Op) {
    && Plans.PlainTenant(p)
    && (p.CreatePlan? ==> Plans.Identified(p.p, p.freshId).id != "")
    && (p.GetPlan? ==> p.remoteHit == RemoteHit(store, Plans.PlanPlace(p.tenant, p.id), p.now))
  }

  predicate PossibleTenant(store: Store, p: Tenants.Op) {
    && Tenants.Plain(p)
    && (p.Get? ==> p.remoteHit == RemoteHit(store, Place(p.id, p.hash), p.now))
    && (p.GetByKey? ==> p.remoteHit == RemoteHit(store, Place(Tenants.BY_KEY, p.hash), p.now))
  }

  /** Tenant ids are colon-free, warm-up gets its rows from the table, and all caches read one second level. */
  predicate Possible(s: Sys, op: Op) {
    match op
    case CreateLicense(l, _, _, _, _, _) => ColonFree(l.tenant)
    case UpdateLicense(l, _, _, _, _) => ColonFree(l.tenant)
    case RevokeLicense(t, _, _, _, _) => ColonFree(t)
    case Activate(t, _, _, _, _) => ColonFree(t)
    case Deactivate(t, _, _, _, _) => ColonFree(t)
    case Validate(t, _, _) => ColonFree(t)
    case WarmUp(recent, _) => forall i | 0 <= i < |recent| :: FindByKey(s.rows, recent[i].tenant, recent[i].key) == Some(recent[i])
    case InvalidateTenant(t) => ColonFree(t)
    case ValidatePublic(_, _) => true
    case PlanOp(p) => PossiblePlan(s.store, p)
    case TenantOp(p) => PossibleTenant(s.store, p)
    case PutProduct(t, _, _) => ColonFree(t)
    case DropProduct(t, _) => ColonFree(t)
    case Background(_) => true
  }

  function Run(cfg: Config, s: Sys, ops: seq<Op>): (r: Sys)
    decreases |ops|
  {
    if ops == [] then s else Exec(cfg, Run(cfg, s, ops[..|ops| - 1]), ops[|ops| - 1])
  }

  predicate PossibleRun(cfg: Config, s: Sys, ops: seq<Op>) {
    forall i | 0 <= i < |ops| :: Possible(Run(cfg, s, ops[..i]), ops[i])
  }

  predicate RowOk(rows: Table, k: string)
    requires k in rows
  {
    rows[k].key == k && ColonFree(rows[k].tenant) && Stored(rows[k]) == rows[k]
  }

  ghost predicate SysOk(cfg: Config, s: Sys) {
    StoreOk(cfg.store, s.store) && (forall k | k in s.rows :: RowOk(s.rows, k)) && "" !in s.plans.rows
  }

  /**
   What a cached license shares with its row: everything but the row's id and what resolving a plan adds.
   The product id of a plan license is the plan's, on the cached copy only.
   */
  function Core(l: License): License {
    Stored(l).(id := "", productId := if l.kind == PlanKind then None else l.productId)
  }
}
