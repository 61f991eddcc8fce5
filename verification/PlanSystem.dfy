/**
 Plans: the table with soft deletion, the plan cache, and the administrative operations that write both.
 */
module PlanSystem {
  import opened Common
  import opened Domain
  import opened Lru
  import opened LicenseStore

  datatype Row = Row(plan: Plan, deleted: bool)

  type Table = map<string, Row>

  /* ---------- the table ---------- */

  predicate Visible(rows: Table, tenant: string, id: string) {
    id in rows && rows[id].plan.tenant == tenant && !rows[id].deleted
  }

  function FindById(rows: Table, tenant: string, id: string): Option<Plan> {
    if Visible(rows, tenant, id) then Some(rows[id].plan) else None
  }

  /** On a conflicting id everything but the owner and the deletion mark is overwritten. */
  function Upsert(rows: Table, p: Plan): Table {
    if p.id in rows then rows[p.id := Row(p.(tenant := rows[p.id].plan.tenant), rows[p.id].deleted)]
    else rows[p.id := Row(p, false)]
  }

  function MarkActive(rows: Table, tenant: string, id: string, active: bool): Option<Table> {
    if Visible(rows, tenant, id) then Some(rows[id := rows[id].(plan := rows[id].plan.(active := active))]) else None
  }

  function Delete(rows: Table, tenant: string, id: string): Option<Table> {
    if Visible(rows, tenant, id) then Some(rows[id := rows[id].(deleted := true)]) else None
  }

  function Restore(rows: Table, tenant: string, id: string): Option<Table> {
    if id in rows && rows[id].plan.tenant == tenant && rows[id].deleted
    then Some(rows[id := rows[id].(deleted := false)]) else None
  }

  /* ---------- the cache ---------- */

  datatype PlanConfig = PlanConfig(cap: nat, ttl: Time, ttlNegative: Time)

  function PlanPlace(tenant: string, id: string): Place {
    Place(tenant, "plan:" + id)
  }

  function PlanKey(tenant: string, id: string): string {
    KeyAt(PlanPlace(tenant, id))
  }

  /**
   A second-level hit never yields a plan: its decoder reads every stored object as a license. So all that
   matters of that level is whether it answers.
   */
  function Look(cfg: PlanConfig, l1: seq<Item<Plan>>, tenant: string, id: string, remoteHit: bool, now: Time)
    : (r: (seq<Item<Plan>>, Option<Plan>))
  {
    var ck := PlanKey(tenant, id);
    var (items, local) := Read(l1, ck, now);
    if local.Some? then (items, local.value.payload)
    else if remoteHit || |items| >= cfg.cap * 9 / 10 then (items, None)
    else (Write(items, cfg.cap, ck, None, cfg.ttlNegative, now), None)
  }

  function PutPlan(cfg: PlanConfig, l1: seq<Item<Plan>>, tenant: string, id: string, p: Plan, now: Time): seq<Item<Plan>> {
    Write(l1, cfg.cap, PlanKey(tenant, id), Some(p), cfg.ttl, now)
  }

  /* ---------- the administrative operations ---------- */

  datatype State = State(rows: Table, l1: seq<Item<Plan>>)

  /** `findOk` and `dbOk` say whether the look-up and the other statement of the call reached the database. */
  datatype Op =
    | CreatePlan(p: Plan, freshId: string, findOk: bool, dbOk: bool, now: Time)
    | UpdatePlan(p: Plan, dbOk: bool, now: Time)
    | GetPlan(tenant: string, id: string, remoteHit: bool, findOk: bool, now: Time)
    | DeletePlan(tenant: string, id: string, dbOk: bool)
    | SetPlanActive(tenant: string, id: string, active: bool, dbOk: bool)
    | RestorePlan(tenant: string, id: string, dbOk: bool, findOk: bool, now: Time)
    | CleanupPlans(limit: int, now: Time)
    | LosePlan(ck: string)

  function Identified(p: Plan, freshId: string): Plan {
    if p.id == "" then p.(id := freshId) else p
  }

  /** A look-up that fails counts as finding nothing, so the creation goes on. */
  predicate Creates(s: State, op: Op) {
    && op.CreatePlan? && op.p.tenant != "" && op.p.name != "" && op.dbOk
    && !(op.findOk && Visible(s.rows, op.p.tenant, Identified(op.p, op.freshId).id))
  }

  predicate Changes(s: State, op: Op) {
    op.UpdatePlan? && op.p.tenant != "" && op.p.id != "" && op.dbOk && Visible(s.rows, op.p.tenant, op.p.id)
  }

  function WriteThrough(cfg: PlanConfig, s: State, p: Plan, now: Time): State {
    State(Upsert(s.rows, p), PutPlan(cfg, s.l1, p.tenant, p.id, p, now))
  }

  /** Read through: from the cache, else from the table, which then fills the cache. */
  function Resolve(cfg: PlanConfig, s: State, tenant: string, id: string, remoteHit: bool, findOk: bool, now: Time)
    : (r: (State, Option<Plan>))
  {
    var (l1, cached) := Look(cfg, s.l1, tenant, id, remoteHit, now);
    var stored := if findOk then FindById(s.rows, tenant, id) else None;
    if cached.Some? then (s.(l1 := l1), cached)
    else if stored.Some? then (s.(l1 := PutPlan(cfg, l1, tenant, id, stored.value, now)), stored)
    else (s.(l1 := l1), None)
  }

  function Exec(cfg: PlanConfig, s: State, op: Op): State {
    match op
    case CreatePlan(p, freshId, _, _, now) =>
      if Creates(s, op) then WriteThrough(cfg, s, Identified(p, freshId), now) else s
    case UpdatePlan(p, _, now) => if Changes(s, op) then WriteThrough(cfg, s, p, now) else s
    case GetPlan(tenant, id, remoteHit, findOk, now) =>
      if tenant == "" || id == "" then s else Resolve(cfg, s, tenant, id, remoteHit, findOk, now).0
    case DeletePlan(tenant, id, dbOk) =>
      if tenant == "" || id == "" || !dbOk || Delete(s.rows, tenant, id).None? then s
      else State(Delete(s.rows, tenant, id).value, Remove(s.l1, PlanKey(tenant, id)))
    case SetPlanActive(tenant, id, active, dbOk) =>
      if tenant == "" || id == "" || !dbOk || MarkActive(s.rows, tenant, id, active).None? then s
      else State(MarkActive(s.rows, tenant, id, active).value, Remove(s.l1, PlanKey(tenant, id)))
    case RestorePlan(tenant, id, dbOk, findOk, now) =>
      if tenant == "" || id == "" || !dbOk || Restore(s.rows, tenant, id).None? then s
      else
        var rows := Restore(s.rows, tenant, id).value;
        State(rows, if findOk then PutPlan(cfg, s.l1, tenant, id, rows[id].plan, now) else s.l1)
    case CleanupPlans(limit, now) => s.(l1 := DropExpired(s.l1, limit, now))
    case LosePlan(ck) => s.(l1 := Remove(s.l1, ck))
  }

  /** Whether reading through goes to the table and finds the plan there. */
  predicate Refills(cfg: PlanConfig, s: State, tenant: string, id: string, remoteHit: bool, findOk: bool, now: Time) {
    Look(cfg, s.l1, tenant, id, remoteHit, now).1.None? && findOk && FindById(s.rows, tenant, id).Some?
  }

  /** The plan put into the cache by an operation, if any. */
  function PutBy(cfg: PlanConfig, s: State, op: Op): Option<Place> {
    match op
    case CreatePlan(p, freshId, _, _, _) =>
      if Creates(s, op) then Some(PlanPlace(p.tenant, Identified(p, freshId).id)) else None
    case UpdatePlan(p, _, _) => if Changes(s, op) then Some(PlanPlace(p.tenant, p.id)) else None
    case GetPlan(tenant, id, remoteHit, findOk, now) =>
      if tenant != "" && id != "" && Refills(cfg, s, tenant, id, remoteHit, findOk, now) then Some(PlanPlace(tenant, id)) else None
    case RestorePlan(tenant, id, dbOk, findOk, _) =>
      if tenant != "" && id != "" && dbOk && findOk && Restore(s.rows, tenant, id).Some? then Some(PlanPlace(tenant, id)) else None
    case _ => None
  }

  predicate Drops(s: State, op: Op) {
    (op.DeletePlan? || op.SetPlanActive?) && op.tenant != "" && op.id != "" && op.dbOk && Visible(s.rows, op.tenant, op.id)
  }

  /** What an operation does to the second level. */
  function OnSecondLevel(cfg: PlanConfig, s: State, op: Op): Elsewhere {
    if PutBy(cfg, s, op).Some? then Stores([PutBy(cfg, s, op).value], cfg.ttl, op.now)
    else if Drops(s, op) then Forgets([PlanPlace(op.tenant, op.id)])
    else Nothing
  }

  function Run(cfg: PlanConfig, s: State, ops: seq<Op>): (r: State)
    decreases |ops|
  {
    if ops == [] then s else Exec(cfg, Run(cfg, s, ops[..|ops| - 1]), ops[|ops| - 1])
  }

  /* ---------- transparency ---------- */

  ghost predicate Caches(l1: seq<Item<Plan>>, ck: string, p: Plan) {
    exists it | it in l1 :: it.key == ck && it.entry.payload == Some(p)
  }

  /** Whatever plan the cache holds is what the table would answer. */
  ghost predicate Transparent(s: State) {
    forall t, id, p | ColonFree(t) && Caches(s.l1, PlanKey(t, id), p) :: FindById(s.rows, t, id) == Some(p)
  }

  ghost predicate Sound(cfg: PlanConfig, s: State) {
    && cfg.cap > 0 && Ok(s.l1, cfg.cap)
    && (forall id | id in s.rows :: s.rows[id].plan.id == id)
    && Transparent(s)
  }

  predicate PlainTenant(op: Op) {
    match op
    case CreatePlan(p, _, _, _, _) => ColonFree(p.tenant)
    case UpdatePlan(p, _, _) => ColonFree(p.tenant)
    case GetPlan(t, _, _, _, _) => ColonFree(t)
    case DeletePlan(t, _, _) => ColonFree(t)
    case SetPlanActive(t, _, _, _) => ColonFree(t)
    case RestorePlan(t, _, _, _, _) => ColonFree(t)
    case CleanupPlans(_, _) => true
    case LosePlan(_) => true
  }

  lemma PlanKeyInjective(t1: string, id1: string, t2: string, id2: string)
    requires ColonFree(t1) && ColonFree(t2)
    ensures PlanKey(t1, id1) == PlanKey(t2, id2) <==> t1 == t2 && id1 == id2
  {
    CacheKeyInjective(t1, "plan:" + id1, t2, "plan:" + id2);
    assert id1 == ("plan:" + id1)[5..] && id2 == ("plan:" + id2)[5..];
  }

  /** The cache holds at most its old plans and this one under this key. */
  lemma PutPlanOk(cfg: PlanConfig, l1: seq<Item<Plan>>, t: string, id: string, p: Plan, now: Time)
    requires cfg.cap > 0 && Ok(l1, cfg.cap)
    ensures var r := PutPlan(cfg, l1, t, id, p, now);
            && Ok(r, cfg.cap)
            && Caches(r, PlanKey(t, id), p)
            && (forall c, q :: Caches(r, c, q) ==> if c == PlanKey(t, id) then q == p else Caches(l1, c, q))
  {
    WriteOk(l1, cfg.cap, PlanKey(t, id), Some(p), cfg.ttl, now);
  }

  lemma LookOk(cfg: PlanConfig, l1: seq<Item<Plan>>, t: string, id: string, remoteHit: bool, now: Time)
    requires cfg.cap > 0 && Ok(l1, cfg.cap)
    ensures var r := Look(cfg, l1, t, id, remoteHit, now);
            && Ok(r.0, cfg.cap)
            && (forall c, q :: Caches(r.0, c, q) ==> Caches(l1, c, q))
            && (r.1.Some? ==> Caches(l1, PlanKey(t, id), r.1.value))
  {
    var ck := PlanKey(t, id);
    ReadOk(l1, cfg.cap, ck, now);
    WriteOk(Read(l1, ck, now).0, cfg.cap, ck, None, cfg.ttlNegative, now);
  }

  /** Changing one row and making its cache entry agree keeps the whole cache in agreement. */
  lemma OneRowChanged(s: State, s': State, t: string, id: string)
    requires Transparent(s) && ColonFree(t)
    requires forall other | other != id :: (other in s.rows <==> other in s'.rows) && (other in s.rows ==> s.rows[other] == s'.rows[other])
    requires id in s.rows ==> s.rows[id].plan.tenant == t
    requires id in s'.rows ==> s'.rows[id].plan.tenant == t
    requires forall c, q :: Caches(s'.l1, c, q) ==> if c == PlanKey(t, id) then FindById(s'.rows, t, id) == Some(q) else Caches(s.l1, c, q)
    ensures Transparent(s')
  {
    forall t', id', p | ColonFree(t') && Caches(s'.l1, PlanKey(t', id'), p)
      ensures FindById(s'.rows, t', id') == Some(p)
    {
      PlanKeyInjective(t', id', t, id);
    }
  }

  /** Whatever is answered is what the table holds, and only a failing look-up answers less. */
  lemma ResolveOk(cfg: PlanConfig, s: State, t: string, id: string, remoteHit: bool, findOk: bool, now: Time)
    requires Sound(cfg, s) && ColonFree(t)
    ensures var r := Resolve(cfg, s, t, id, remoteHit, findOk, now);
            && Sound(cfg, r.0) && r.0.rows == s.rows
            && (r.1.Some? || findOk ==> r.1 == FindById(s.rows, t, id))
  {
    LookOk(cfg, s.l1, t, id, remoteHit, now);
    var l1 := Look(cfg, s.l1, t, id, remoteHit, now).0;
    var stored := FindById(s.rows, t, id);
    if stored.Some? {
      PutPlanOk(cfg, l1, t, id, stored.value, now);
      OneRowChanged(s, s.(l1 := PutPlan(cfg, l1, t, id, stored.value, now)), t, id);
    }
  }

  lemma WriteThroughOk(cfg: PlanConfig, s: State, p: Plan, now: Time)
    requires Sound(cfg, s) && ColonFree(p.tenant) && (p.id in s.rows ==> Visible(s.rows, p.tenant, p.id))
    ensures Sound(cfg, WriteThrough(cfg, s, p, now))
  {
    PutPlanOk(cfg, s.l1, p.tenant, p.id, p, now);
    OneRowChanged(s, WriteThrough(cfg, s, p, now), p.tenant, p.id);
  }

  /** The id has no row, or one the tenant sees; not a deleted one and not another tenant's. */
  predicate Harmless(s: State, op: Op) {
    Creates(s, op) ==>
      var id := Identified(op.p, op.freshId).id; id !in s.rows || Visible(s.rows, op.p.tenant, id)
  }

  /**
   Creating a plan keeps cache and table in agreement exactly when its id has no row, or one that a failed
   look-up missed: the upsert leaves owner and deletion mark, the cache entry ignores them.
   */
  lemma CreateKeepsAgreementIff(cfg: PlanConfig, s: State, op: Op)
    requires Sound(cfg, s) && Creates(s, op) && ColonFree(op.p.tenant)
    ensures Sound(cfg, Exec(cfg, s, op)) <==> Harmless(s, op)
  {
    var q := Identified(op.p, op.freshId);
    if Harmless(s, op) {
      WriteThroughOk(cfg, s, q, op.now);
    } else {
      PutPlanOk(cfg, s.l1, q.tenant, q.id, q, op.now);
      assert Caches(WriteThrough(cfg, s, q, op.now).l1, PlanKey(q.tenant, q.id), q);
    }
  }

  /**
   A run that fails: create, delete and create again under one id. The cache then answers a plan the
   table does not show.
   */
  lemma RecreatedPlanIsOnlyCached(cfg: PlanConfig, p: Plan, now: Time)
    requires cfg.cap > 0 && p.tenant != "" && p.name != "" && p.id != ""
    ensures var create := CreatePlan(p, "", true, true, now);
            var s := Run(cfg, State(map[], []), [create, DeletePlan(p.tenant, p.id, true), create]);
            && Resolve(cfg, s, p.tenant, p.id, false, true, now).1 == Some(p)
            && FindById(s.rows, p.tenant, p.id).None?
  {
    var create, delete := CreatePlan(p, "", true, true, now), DeletePlan(p.tenant, p.id, true);
    var s0 := State(map[], []);
    var s1 := Exec(cfg, s0, create);
    var s2 := Exec(cfg, s1, delete);
    var ops := [create, delete, create];
    assert Run(cfg, s0, ops) == Exec(cfg, s2, create) by {
      assert ops[..2] == [create, delete] && [create, delete][..1] == [create] && [create][..0] == [];
      assert Run(cfg, s0, []) == s0;
      assert Run(cfg, s0, [create]) == s1;
      assert Run(cfg, s0, [create, delete]) == s2;
    }
    assert s2.rows == map[p.id := Row(p, true)];
    WriteOk(s0.l1, cfg.cap, PlanKey(p.tenant, p.id), Some(p), cfg.ttl, now);
    RemoveOk(s1.l1, cfg.cap, PlanKey(p.tenant, p.id));
    WriteOk(s2.l1, cfg.cap, PlanKey(p.tenant, p.id), Some(p), cfg.ttl, now);
  }

  lemma InvalidatedOk(cfg: PlanConfig, s: State, rows: Table, t: string, id: string)
    requires Sound(cfg, s) && ColonFree(t)
    requires id in s.rows && s.rows[id].plan.tenant == t
    requires exists row: Row :: rows == s.rows[id := row] && row.plan.id == id && row.plan.tenant == t
    ensures Sound(cfg, State(rows, Remove(s.l1, PlanKey(t, id))))
  {
    RemoveOk(s.l1, cfg.cap, PlanKey(t, id));
    OneRowChanged(s, State(rows, Remove(s.l1, PlanKey(t, id))), t, id);
  }

  lemma StepKeepsAgreement(cfg: PlanConfig, s: State, op: Op)
    requires Sound(cfg, s) && PlainTenant(op) && Harmless(s, op)
    ensures Sound(cfg, Exec(cfg, s, op))
  {
    if op.CreatePlan? {
      if Creates(s, op) {
        WriteThroughOk(cfg, s, Identified(op.p, op.freshId), op.now);
      }
    } else if op.UpdatePlan? {
      if Changes(s, op) {
        WriteThroughOk(cfg, s, op.p, op.now);
      }
    } else if op.GetPlan? {
      ResolveOk(cfg, s, op.tenant, op.id, op.remoteHit, op.findOk, op.now);
    } else if op.DeletePlan? {
      if Visible(s.rows, op.tenant, op.id) {
        InvalidatedOk(cfg, s, Delete(s.rows, op.tenant, op.id).value, op.tenant, op.id);
      }
    } else if op.SetPlanActive? {
      if Visible(s.rows, op.tenant, op.id) {
        InvalidatedOk(cfg, s, MarkActive(s.rows, op.tenant, op.id, op.active).value, op.tenant, op.id);
      }
    } else if op.RestorePlan? {
      var rows := Restore(s.rows, op.tenant, op.id);
      if rows.Some? {
        var p := rows.value[op.id].plan;
        PutPlanOk(cfg, s.l1, op.tenant, op.id, p, op.now);
        OneRowChanged(s, State(rows.value, PutPlan(cfg, s.l1, op.tenant, op.id, p, op.now)), op.tenant, op.id);
        OneRowChanged(s, State(rows.value, s.l1), op.tenant, op.id);
      }
    } else if op.CleanupPlans? {
      DropExpiredOk(s.l1, op.limit, op.now);
    } else {
      RemoveOk(s.l1, cfg.cap, op.ck);
    }
  }

  /** A run whose creations each took an id that was harmless at that moment. */
  predicate HarmlessRun(cfg: PlanConfig, s: State, ops: seq<Op>) {
    forall i | 0 <= i < |ops| :: Harmless(Run(cfg, s, ops[..i]), ops[i])
  }

  lemma {:induction false} RunKeepsAgreement(cfg: PlanConfig, s: State, ops: seq<Op>)
    requires Sound(cfg, s) && HarmlessRun(cfg, s, ops) && forall i | 0 <= i < |ops| :: PlainTenant(ops[i])
    ensures Sound(cfg, Run(cfg, s, ops))
    decreases |ops|
  {
    if ops != [] {
      var before := ops[..|ops| - 1];
      forall i | 0 <= i < |before| ensures Harmless(Run(cfg, s, before[..i]), before[i]) {
        assert before[..i] == ops[..i];
      }
      RunKeepsAgreement(cfg, s, before);
      StepKeepsAgreement(cfg, Run(cfg, s, before), ops[|ops| - 1]);
    }
  }

  /** After every such run, reading a plan through the cache is reading the table. */
  lemma PlanCacheIsTransparent(cfg: PlanConfig, s: State, ops: seq<Op>, t: string, id: string, remoteHit: bool, now: Time)
    requires cfg.cap > 0 && s == State(map[], []) && ColonFree(t)
    requires HarmlessRun(cfg, s, ops) && forall i | 0 <= i < |ops| :: PlainTenant(ops[i])
    ensures var s' := Run(cfg, s, ops); Resolve(cfg, s', t, id, remoteHit, true, now).1 == FindById(s'.rows, t, id)
  {
    RunKeepsAgreement(cfg, s, ops);
    ResolveOk(cfg, Run(cfg, s, ops), t, id, remoteHit, true, now);
  }

  /* ---------- the service ---------- */

  datatype Outcome = Done | InvalidPlan | InvalidRequest | AlreadyExists | NotFound | DbError

  /** There is such a row, the tenant's and not deleted. */
  predicate Shows(rows: Table, tenant: string, id: string) {
    id in rows && rows[id].plan.tenant == tenant && !rows[id].deleted
  }

  /** The cache has this plan under its key, written at that instant. */
  predicate CachedAs(l1: seq<Item<Plan>>, tenant: string, id: string, p: Plan, ttl: Time, now: Time) {
    Lookup(l1, CacheKey(tenant, "plan:" + id)) == Some(Entry(Some(p), Expiry(ttl, now)))
  }

  predicate NotCached(l1: seq<Item<Plan>>, tenant: string, id: string) {
    Lookup(l1, CacheKey(tenant, "plan:" + id)).None?
  }

  lemma PutIsCached(cfg: PlanConfig, l1: seq<Item<Plan>>, t: string, id: string, p: Plan, now: Time)
    requires cfg.cap > 0 && Ok(l1, cfg.cap)
    ensures CachedAs(PutPlan(cfg, l1, t, id, p, now), t, id, p, cfg.ttl, now) && NotCached(Remove(l1, PlanKey(t, id)), t, id)
  {
    WriteOk(l1, cfg.cap, PlanKey(t, id), Some(p), cfg.ttl, now);
    RemoveOk(l1, cfg.cap, PlanKey(t, id));
  }

  lemma CachedIsRead(cfg: PlanConfig, s: State, t: string, id: string, p: Plan, at: Time, remoteHit: bool, findOk: bool, later: Time)
    requires CachedAs(s.l1, t, id, p, cfg.ttl, at) && FindById(s.rows, t, id) == Some(p)
    requires findOk || cfg.ttl <= 0 || later <= at + cfg.ttl
    ensures Resolve(cfg, s, t, id, remoteHit, findOk, later).1 == Some(p)
  {
  }

  /** A plan read from the table is cached; a miss the second level does not answer is remembered if there is room. */
  lemma LookupLeaves(cfg: PlanConfig, s: State, t: string, id: string, remoteHit: bool, findOk: bool, now: Time)
    requires cfg.cap > 0 && Ok(s.l1, cfg.cap) && Read(s.l1, CacheKey(t, "plan:" + id), now).1.None?
    ensures var after := Resolve(cfg, s, t, id, remoteHit, findOk, now).0.l1;
            if findOk && Shows(s.rows, t, id) then CachedAs(after, t, id, s.rows[id].plan, cfg.ttl, now)
            else if !remoteHit && |Read(s.l1, CacheKey(t, "plan:" + id), now).0| < cfg.cap * 9 / 10
            then Lookup(after, CacheKey(t, "plan:" + id)) == Some(Entry(None, Expiry(cfg.ttlNegative, now)))
            else after == Read(s.l1, CacheKey(t, "plan:" + id), now).0
  {
    ReadOk(s.l1, cfg.cap, PlanKey(t, id), now);
    var kept := Read(s.l1, PlanKey(t, id), now).0;
    WriteOk(kept, cfg.cap, PlanKey(t, id), None, cfg.ttlNegative, now);
    if findOk && Shows(s.rows, t, id) {
      PutIsCached(cfg, Look(cfg, s.l1, t, id, remoteHit, now).0, t, id, s.rows[id].plan, now);
    }
  }

  /**
   A plan just updated is what a look-up answers: from the cache until the entry expires, whatever the table or
   the second level do, and from the table after that.
   */
  lemma UpdatedPlanIsRead(cfg: PlanConfig, s: State, op: Op, remoteHit: bool, findOk: bool, later: Time)
    requires cfg.cap > 0 && Ok(s.l1, cfg.cap) && Changes(s, op)
    requires findOk || cfg.ttl <= 0 || later <= op.now + cfg.ttl
    ensures Resolve(cfg, Exec(cfg, s, op), op.p.tenant, op.p.id, remoteHit, findOk, later).1 == Some(op.p)
  {
    PutIsCached(cfg, s.l1, op.p.tenant, op.p.id, op.p, op.now);
    CachedIsRead(cfg, Exec(cfg, s, op), op.p.tenant, op.p.id, op.p, op.now, remoteHit, findOk, later);
  }

  /** And so is a plan just created under a new id. */
  lemma CreatedPlanIsRead(cfg: PlanConfig, s: State, op: Op, remoteHit: bool, findOk: bool, later: Time)
    requires cfg.cap > 0 && Ok(s.l1, cfg.cap) && Creates(s, op) && Identified(op.p, op.freshId).id !in s.rows
    requires findOk || cfg.ttl <= 0 || later <= op.now + cfg.ttl
    ensures var id := if op.p.id == "" then op.freshId else op.p.id;
            Resolve(cfg, Exec(cfg, s, op), op.p.tenant, id, remoteHit, findOk, later).1 == Some(op.p.(id := id))
  {
    var q := Identified(op.p, op.freshId);
    PutIsCached(cfg, s.l1, q.tenant, q.id, q, op.now);
    CachedIsRead(cfg, Exec(cfg, s, op), q.tenant, q.id, q, op.now, remoteHit, findOk, later);
  }

  /** The plan cache in front of the table, as the administrative service uses them. */
  class PlanAdmin {
    const cfg: PlanConfig
    const cache: L1Cache<Plan>
    const l2: L2Cache?
    var rows: Table

    ghost predicate Valid()
      reads this, cache
    {
      cache.Valid() && cache.maxEntries == cfg.cap && forall id | id in rows :: rows[id].plan.id == id
    }

    ghost function Now(): State
      reads this, cache
    {
      State(rows, cache.items)
    }

    constructor (cfg: PlanConfig, cache: L1Cache<Plan>, l2: L2Cache?)
      requires cache.Valid() && cache.maxEntries == cfg.cap
      ensures Valid() && this.cfg == cfg && this.cache == cache && this.l2 == l2 && Now() == State(map[], old(cache.items))
    {
      this.cfg := cfg;
      this.cache := cache;
      this.l2 := l2;
      rows := map[];
    }

    /** Whether the second level answers under the plan's key, with whatever. */
    ghost predicate Hit(tenant: string, id: string, now: Time)
      reads l2
    {
      RemoteGet(DataOf(l2), PlanKey(tenant, id), now).Some?
    }

    /** The two levels after an operation. */
    twostate predicate Makes(op: Op)
      reads this, cache, l2
    {
      && Now() == Exec(cfg, old(Now()), op)
      && DataOf(l2) == Disturb(old(DataOf(l2)), OnSecondLevel(cfg, old(Now()), op))
    }

    method CachePut(tenant: string, id: string, p: Plan, now: Time)
      requires Valid()
      modifies cache, l2
      ensures Valid() && cache.items == PutPlan(cfg, old(cache.items), tenant, id, p, now)
      ensures CachedAs(cache.items, tenant, id, p, cfg.ttl, now)
      ensures DataOf(l2) == Disturb(old(DataOf(l2)), Stores([PlanPlace(tenant, id)], cfg.ttl, now))
    {
      PutIsCached(cfg, cache.items, tenant, id, p, now);
      cache.Set(PlanKey(tenant, id), Some(p), cfg.ttl, now);
      StoreElsewhere(l2, PlanPlace(tenant, id), OfPlan, cfg.ttl, now);
    }

    method CacheDrop(tenant: string, id: string)
      requires Valid()
      modifies cache, l2
      ensures Valid() && cache.items == Remove(old(cache.items), PlanKey(tenant, id)) && NotCached(cache.items, tenant, id)
      ensures DataOf(l2) == Disturb(old(DataOf(l2)), Forgets([PlanPlace(tenant, id)]))
    {
      RemoveOk(cache.items, cfg.cap, PlanKey(tenant, id));
      cache.Invalidate(PlanKey(tenant, id));
      ForgetElsewhere(l2, PlanPlace(tenant, id));
    }

    method CacheGet(tenant: string, id: string, now: Time) returns (found: Option<Plan>)
      requires Valid()
      modifies cache
      ensures Valid() && (cache.items, found) == Look(cfg, old(cache.items), tenant, id, Hit(tenant, id, now), now)
    {
      var ck := PlanKey(tenant, id);
      var local := cache.Get(ck, now);
      if local.Some? {
        return local.value.payload;
      }
      if l2 != null {
        var remote := l2.Get(ck, now);
        if remote.Some? {
          return None; // a license, never a plan
        }
      }
      if |cache.items| < cache.maxEntries * 9 / 10 {
        cache.Set(ck, None, cfg.ttlNegative, now);
      }
      return None;
    }

    method CreatePlan(p: Plan, freshId: string, findOk: bool, dbOk: bool, now: Time) returns (out: Outcome)
      requires Valid()
      modifies this, cache, l2
      ensures Valid() && Makes(Op.CreatePlan(p, freshId, findOk, dbOk, now))
      ensures out == Done <==> Creates(old(Now()), Op.CreatePlan(p, freshId, findOk, dbOk, now))
      ensures var id := if p.id == "" then freshId else p.id;
              && out == (if p.tenant == "" || p.name == "" then InvalidPlan
                         else if findOk && Shows(old(rows), p.tenant, id) then AlreadyExists
                         else if dbOk then Done else DbError)
              && rows == (if out != Done then old(rows)
                          else if id in old(rows) then old(rows)[id := Row(p.(id := id, tenant := old(rows)[id].plan.tenant), old(rows)[id].deleted)]
                          else old(rows)[id := Row(p.(id := id), false)])
              && (out == Done ==> CachedAs(cache.items, p.tenant, id, p.(id := id), cfg.ttl, now))
    {
      if p.tenant == "" || p.name == "" {
        return InvalidPlan;
      }
      var q := p;
      if q.id == "" {
        q := q.(id := freshId);
      }
      if findOk && FindById(rows, q.tenant, q.id).Some? {
        return AlreadyExists;
      }
      if !dbOk {
        return DbError;
      }
      rows := Upsert(rows, q);
      CachePut(q.tenant, q.id, q, now);
      return Done;
    }

    method UpdatePlan(p: Plan, dbOk: bool, now: Time) returns (out: Outcome)
      requires Valid()
      modifies this, cache, l2
      ensures Valid() && Makes(Op.UpdatePlan(p, dbOk, now))
      ensures out == Done <==> Changes(old(Now()), Op.UpdatePlan(p, dbOk, now))
      ensures out == if p.tenant == "" || p.id == "" then InvalidPlan
                     else if dbOk && Shows(old(rows), p.tenant, p.id) then Done else NotFound
      ensures rows == if out == Done then old(rows)[p.id := Row(p, false)] else old(rows)
      ensures out == Done ==> CachedAs(cache.items, p.tenant, p.id, p, cfg.ttl, now)
    {
      if p.tenant == "" || p.id == "" {
        return InvalidPlan;
      }
      if !dbOk || FindById(rows, p.tenant, p.id).None? {
        return NotFound;
      }
      rows := Upsert(rows, p);
      CachePut(p.tenant, p.id, p, now);
      return Done;
    }

    /** Reads through the cache; given agreement it answers what the table holds. */
    method GetPlan(tenant: string, id: string, findOk: bool, now: Time) returns (found: Option<Plan>)
      requires Valid()
      modifies this, cache, l2
      ensures Valid() && Makes(Op.GetPlan(tenant, id, old(Hit(tenant, id, now)), findOk, now))
      ensures tenant == "" || id == "" ==> found.None?
      ensures tenant != "" && id != "" && ColonFree(tenant) && Transparent(old(Now())) && (found.Some? || findOk)
              ==> found == FindById(old(rows), tenant, id)
    {
      if tenant == "" || id == "" {
        return None;
      }
      LookOk(cfg, cache.items, tenant, id, Hit(tenant, id, now), now);
      var cached := CacheGet(tenant, id, now);
      if cached.Some? {
        return cached;
      }
      if !findOk {
        return None;
      }
      found := FindById(rows, tenant, id);
      if found.Some? {
        CachePut(tenant, id, found.value, now);
      }
    }

    method DeletePlan(tenant: string, id: string, dbOk: bool) returns (out: Outcome)
      requires Valid()
      modifies this, cache, l2
      ensures Valid() && Makes(Op.DeletePlan(tenant, id, dbOk))
      ensures out == Done <==> tenant != "" && id != "" && dbOk && Visible(old(rows), tenant, id)
      ensures out == Done ==> FindById(rows, tenant, id).None?
      ensures out == if tenant == "" || id == "" then InvalidRequest else if !dbOk then DbError
                     else if Shows(old(rows), tenant, id) then Done else NotFound
      ensures rows == if out == Done then old(rows)[id := Row(old(rows)[id].plan, true)] else old(rows)
      ensures out == Done ==> NotCached(cache.items, tenant, id)
    {
      if tenant == "" || id == "" {
        return InvalidRequest;
      }
      if !dbOk {
        return DbError;
      }
      var changed := Delete(rows, tenant, id);
      if changed.None? {
        return NotFound;
      }
      rows := changed.value;
      CacheDrop(tenant, id);
      return Done;
    }

    method SetPlanActive(tenant: string, id: string, active: bool, dbOk: bool) returns (out: Outcome)
      requires Valid()
      modifies this, cache, l2
      ensures Valid() && Makes(Op.SetPlanActive(tenant, id, active, dbOk))
      ensures out == Done <==> tenant != "" && id != "" && dbOk && Visible(old(rows), tenant, id)
      ensures out == Done ==> FindById(rows, tenant, id).Some? && FindById(rows, tenant, id).value.active == active
      ensures out == if tenant == "" || id == "" then InvalidRequest else if !dbOk then DbError
                     else if Shows(old(rows), tenant, id) then Done else NotFound
      ensures rows == if out == Done then old(rows)[id := Row(old(rows)[id].plan.(active := active), false)] else old(rows)
      ensures out == Done ==> NotCached(cache.items, tenant, id)
    {
      if tenant == "" || id == "" {
        return InvalidRequest;
      }
      if !dbOk {
        return DbError;
      }
      var changed := MarkActive(rows, tenant, id, active);
      if changed.None? {
        return NotFound;
      }
      rows := changed.value;
      CacheDrop(tenant, id);
      return Done;
    }

    /** The row is shown again even when the look-up for the cache then fails and the call reports an error. */
    method RestorePlan(tenant: string, id: string, dbOk: bool, findOk: bool, now: Time) returns (out: Outcome)
      requires Valid()
      modifies this, cache, l2
      ensures Valid() && Makes(Op.RestorePlan(tenant, id, dbOk, findOk, now))
      ensures out == Done <==> tenant != "" && id != "" && dbOk && findOk && Restore(old(rows), tenant, id).Some?
      ensures out == Done ==> FindById(rows, tenant, id).Some?
      ensures var found := id in old(rows) && old(rows)[id].plan.tenant == tenant && old(rows)[id].deleted;
              && out == (if tenant == "" || id == "" then InvalidRequest else if !dbOk then DbError
                         else if !found then NotFound else if findOk then Done else DbError)
              && rows == (if tenant != "" && id != "" && dbOk && found then old(rows)[id := Row(old(rows)[id].plan, false)] else old(rows))
              && (out == Done ==> CachedAs(cache.items, tenant, id, old(rows)[id].plan, cfg.ttl, now))
    {
      if tenant == "" || id == "" {
        return InvalidRequest;
      }
      if !dbOk {
        return DbError;
      }
      var changed := Restore(rows, tenant, id);
      if changed.None? {
        return NotFound;
      }
      rows := changed.value;
      if !findOk {
        return DbError;
      }
      CachePut(tenant, id, rows[id].plan, now);
      return Done;
    }
  }
}
