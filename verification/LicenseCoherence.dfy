/**
 Cache and table over serial runs: what each operation writes into the cache, what the other caches leave in
 the second level, and the invariant that every cached license has a row of its own tenant with the same core.
 */
module LicenseCoherence {
  import opened Common
  import opened Domain
  import opened Lru
  import opened LicenseStore
  import opened LicenseSystem
  import Plans = PlanSystem
  import Tenants = TenantSystem
  import Runs = LicenseStoreRuns

  /* ---------- what an operation writes into the cache ---------- */

  datatype CacheWrite = CacheWrite(tenant: string, key: string, lic: License)

  predicate Touches(w: CacheWrite, ck: string) {
    ck == CacheKey(w.tenant, w.key) || ck == GlobalKey(w.key)
  }

  /** A look-up that misses and finds the row writes the row. */
  function Refill(cfg: LicenseSystem.Config, s: Sys, t: string, k: string, dbOk: bool, now: Time): seq<CacheWrite> {
    if Fetch(cfg.store, s.store, t, k, now).1.None? && dbOk && FindByKey(s.rows, t, k).Some?
    then [CacheWrite(t, k, s.rows[k])] else []
  }

  function WarmWrites(cfg: LicenseStore.Config, store: Store, recent: seq<License>, now: Time): seq<CacheWrite>
    decreases |recent|
  {
    if recent == [] then []
    else
      var before, lic := recent[..|recent| - 1], recent[|recent| - 1];
      WarmWrites(cfg, store, before, now) +
      if Warms(WarmAll(cfg, store, before, now), lic, now) then [CacheWrite(lic.tenant, lic.key, lic)] else []
  }

  function Writes(cfg: LicenseSystem.Config, s: Sys, op: Op): seq<CacheWrite> {
    match op
    case CreateLicense(l, _, _, _, _, _) => if Creates(s, op) then [CacheWrite(l.tenant, l.key, SavedCopy(cfg, s, op))] else []
    case UpdateLicense(l, _, _, _, _) => if Updates(op) then [CacheWrite(l.tenant, l.key, SavedCopy(cfg, s, op))] else []
    case RevokeLicense(t, k, _, _, _) => if Revokes(s, op) then [CacheWrite(t, k, s.rows[k].(status := Revoked))] else []
    case Activate(t, k, dbOk, _, now) => Refill(cfg, s, t, k, dbOk, now)
    case Deactivate(t, k, dbOk, _, now) => Refill(cfg, s, t, k, dbOk, now)
    case WarmUp(recent, now) => WarmWrites(cfg.store, s.store, recent, now)
    case _ => []
  }

  /** What the other caches do to the second level in an operation. */
  function ElsewhereBy(cfg: LicenseSystem.Config, s: Sys, op: Op): Elsewhere {
    match op
    case CreateLicense(_, _, _, planOk, _, now) => if Creates(s, op) then PlanElsewhere(cfg, s, Submitted(op), planOk, now) else Nothing
    case UpdateLicense(_, _, planOk, _, now) => if Updates(op) then PlanElsewhere(cfg, s, Submitted(op), planOk, now) else Nothing
    case PlanOp(p) => Plans.OnSecondLevel(cfg.plans, s.plans, p)
    case TenantOp(p) => Tenants.OnSecondLevel(cfg.tenants, s.tenants, p)
    case PutProduct(t, code, now) => if t == "" || code == "" then Nothing else Stores([ProductPlace(t, code)], cfg.ttlProduct, now)
    case DropProduct(t, code) => Forgets([ProductPlace(t, code)])
    case _ => Nothing
  }

  /** The places where an operation leaves the entry of another cache; a license saved there displaces it. */
  function Intrusions(cfg: LicenseSystem.Config, s: Sys, op: Op): seq<Place> {
    var e := ElsewhereBy(cfg, s, op);
    if s.store.l2.None? || !e.Stores? then []
    else if (op.CreateLicense? || op.UpdateLicense?) && e.places == [Place(op.l.tenant, op.l.key)] then []
    else e.places
  }

  predicate Covers(fs: seq<Place>, ck: string) {
    exists f | f in fs :: ck == KeyAt(f)
  }

  /**
   Whatever the cache holds afterwards was just written, or is the blank license at a place where another
   cache has stored its entry, or was there and nothing written displaced it.
   */
  ghost predicate Explained(store: Store, store': Store, ws: seq<CacheWrite>, fs: seq<Place>) {
    forall c, v | Holds(store', c, v) ::
      || (exists w | w in ws :: Touches(w, c) && v == w.lic)
      || (v == BLANK && Covers(fs, c))
      || (Holds(store, c, v) && forall w | w in ws :: !Touches(w, c))
  }

  lemma PutExplained(cfg: LicenseStore.Config, store: Store, t: string, k: string, lic: License, now: Time)
    requires StoreOk(cfg, store)
    ensures StoreOk(cfg, Put(cfg, store, t, k, lic, now)) && Explained(store, Put(cfg, store, t, k, lic, now), [CacheWrite(t, k, lic)], [])
  {
    PutOk(cfg, store, t, k, lic, now);
    assert CacheWrite(t, k, lic) in [CacheWrite(t, k, lic)];
  }

  lemma OnlyShrunk(store: Store, store': Store)
    requires forall c, v :: Holds(store', c, v) ==> Holds(store, c, v)
    ensures Explained(store, store', [], [])
  {
  }

  lemma DisturbExplained(cfg: LicenseStore.Config, store: Store, e: Elsewhere)
    requires StoreOk(cfg, store)
    ensures StoreOk(cfg, Disturbed(store, e))
    ensures Explained(store, Disturbed(store, e), [], if store.l2.Some? && e.Stores? then e.places else [])
  {
    DisturbOk(cfg, store, e);
  }

  /** A license put where another cache has just stored its entry displaces it. */
  lemma SaveExplained(cfg: LicenseStore.Config, store: Store, e: Elsewhere, t: string, k: string, lic: License, now: Time)
    requires StoreOk(cfg, store)
    ensures var store' := Put(cfg, Disturbed(store, e), t, k, lic, now);
            var fs := if store.l2.None? || !e.Stores? || e.places == [Place(t, k)] then [] else e.places;
            StoreOk(cfg, store') && Explained(store, store', [CacheWrite(t, k, lic)], fs)
  {
    var mid, w := Disturbed(store, e), CacheWrite(t, k, lic);
    DisturbExplained(cfg, store, e);
    PutExplained(cfg, mid, t, k, lic, now);
    assert Touches(w, KeyAt(Place(t, k)));
    assert w in [w];
  }

  lemma ResolveExplained(cfg: LicenseSystem.Config, s: Sys, t: string, k: string, dbOk: bool, now: Time)
    requires SysOk(cfg, s)
    ensures var store := ResolveLicense(cfg, s, t, k, dbOk, now).0;
            && StoreOk(cfg.store, store) && Explained(s.store, store, Refill(cfg, s, t, k, dbOk, now), [])
            && StoreOk(cfg.store, Drop(store, t, k)) && Explained(s.store, Drop(store, t, k), Refill(cfg, s, t, k, dbOk, now), [])
  {
    FetchOk(cfg.store, s.store, t, k, now);
    var fetched, store := Fetch(cfg.store, s.store, t, k, now).0, ResolveLicense(cfg, s, t, k, dbOk, now).0;
    OnlyShrunk(s.store, fetched);
    if Refill(cfg, s, t, k, dbOk, now) != [] {
      PutExplained(cfg.store, fetched, t, k, s.rows[k], now);
      ExplainedTwice(s.store, fetched, store, [], [CacheWrite(t, k, s.rows[k])]);
    }
    DropOk(cfg.store, store, t, k);
    OnlyShrunk(store, Drop(store, t, k));
    ExplainedTwice(s.store, store, Drop(store, t, k), Refill(cfg, s, t, k, dbOk, now), []);
  }

  /** One more warmed row. */
  lemma WarmOneExplained(cfg: LicenseStore.Config, store: Store, lic: License, now: Time)
    requires StoreOk(cfg, store)
    ensures var ws := if Warms(store, lic, now) then [CacheWrite(lic.tenant, lic.key, lic)] else [];
            StoreOk(cfg, WarmOne(cfg, store, lic, now)) && Explained(store, WarmOne(cfg, store, lic, now), ws, [])
  {
    var ck := CacheKey(lic.tenant, lic.key);
    ReadOk(store.l1, cfg.cap, ck, now);
    var read := store.(l1 := Read(store.l1, ck, now).0);
    OnlyShrunk(store, store);
    OnlyShrunk(store, read);
    PutExplained(cfg, read, lic.tenant, lic.key, lic, now);
    ExplainedTwice(store, read, Put(cfg, read, lic.tenant, lic.key, lic, now), [], [CacheWrite(lic.tenant, lic.key, lic)]);
  }

  lemma ExplainedTwice(a: Store, b: Store, c: Store, ws: seq<CacheWrite>, vs: seq<CacheWrite>)
    requires Explained(a, b, ws, []) && Explained(b, c, vs, [])
    ensures Explained(a, c, ws + vs, [])
    ensures ws == [] ==> ws + vs == vs
    ensures vs == [] ==> ws + vs == ws
  {
    forall ck, v | Holds(c, ck, v)
      ensures (exists w | w in ws + vs :: Touches(w, ck) && v == w.lic) || (Holds(a, ck, v) && forall w | w in ws + vs :: !Touches(w, ck))
    {
      if w :| w in vs && Touches(w, ck) && v == w.lic {
        assert w in ws + vs;
      } else {
        assert Holds(b, ck, v);
        if w :| w in ws && Touches(w, ck) && v == w.lic {
          assert w in ws + vs;
        }
      }
    }
  }

  lemma {:induction false} WarmExplained(cfg: LicenseStore.Config, store: Store, recent: seq<License>, now: Time)
    requires StoreOk(cfg, store)
    ensures StoreOk(cfg, WarmAll(cfg, store, recent, now))
    ensures Explained(store, WarmAll(cfg, store, recent, now), WarmWrites(cfg, store, recent, now), [])
    decreases |recent|
  {
    if recent == [] {
      OnlyShrunk(store, store);
    } else {
      var before, lic := recent[..|recent| - 1], recent[|recent| - 1];
      WarmExplained(cfg, store, before, now);
      var mid := WarmAll(cfg, store, before, now);
      WarmOneExplained(cfg, mid, lic, now);
      ExplainedTwice(store, mid, WarmOne(cfg, mid, lic, now), WarmWrites(cfg, store, before, now),
                     if Warms(mid, lic, now) then [CacheWrite(lic.tenant, lic.key, lic)] else []);
    }
  }

  /** Every operation keeps the cache well-formed and its contents are explained by its writes and intrusions. */
  lemma StepExplained(cfg: LicenseSystem.Config, s: Sys, op: Op)
    requires SysOk(cfg, s)
    ensures StoreOk(cfg.store, StoreAfter(cfg, s, op))
    ensures Explained(s.store, StoreAfter(cfg, s, op), Writes(cfg, s, op), Intrusions(cfg, s, op))
  {
    OnlyShrunk(s.store, s.store);
    if op.CreateLicense? || op.UpdateLicense? {
      SaveExplained(cfg.store, s.store, PlanElsewhere(cfg, s, Submitted(op), op.planOk, op.now),
                    op.l.tenant, op.l.key, SavedCopy(cfg, s, op), op.now);
    } else if op.RevokeLicense? {
      if Revokes(s, op) {
        PutExplained(cfg.store, s.store, op.tenant, op.key, s.rows[op.key].(status := Revoked), op.now);
      }
    } else if op.Activate? || op.Deactivate? {
      ResolveExplained(cfg, s, op.tenant, op.key, op.dbOk, op.now);
    } else if op.WarmUp? {
      WarmExplained(cfg.store, s.store, op.recent, op.now);
    } else if op.PlanOp? || op.TenantOp? || op.PutProduct? || op.DropProduct? {
      OtherCacheExplained(cfg, s, op);
    } else {
      ReaderExplained(cfg, s, op);
    }
  }

  /** An operation of another cache: it may drop licenses, and leaves blank ones where it stores. */
  lemma OtherCacheExplained(cfg: LicenseSystem.Config, s: Sys, op: Op)
    requires SysOk(cfg, s)
    requires op.PlanOp? || op.TenantOp? || op.PutProduct? || op.DropProduct?
    ensures StoreOk(cfg.store, StoreAfter(cfg, s, op)) && Explained(s.store, StoreAfter(cfg, s, op), [], Intrusions(cfg, s, op))
  {
    var e := ElsewhereBy(cfg, s, op);
    DisturbExplained(cfg.store, s.store, e);
    if op.TenantOp? && op.tenantOp.Suspend? && Tenants.Suspends(s.tenants, op.tenantOp) {
      ShrinkingExplained(cfg.store, s.store, op.tenantOp.id, e);
    }
  }

  lemma ShrinkingExplained(cfg: LicenseStore.Config, store: Store, t: string, e: Elsewhere)
    requires StoreOk(cfg, store) && !e.Stores?
    ensures var store' := Disturbed(DropTenant(store, t), e); StoreOk(cfg, store') && Explained(store, store', [], [])
  {
    DropTenantOk(cfg, store, t);
    DisturbOk(cfg, DropTenant(store, t), e);
    OnlyShrunk(store, Disturbed(DropTenant(store, t), e));
  }

  lemma ReaderExplained(cfg: LicenseSystem.Config, s: Sys, op: Op)
    requires SysOk(cfg, s)
    requires op.Validate? || op.ValidatePublic? || op.InvalidateTenant? || op.Background?
    ensures StoreOk(cfg.store, StoreAfter(cfg, s, op)) && Explained(s.store, StoreAfter(cfg, s, op), [], [])
  {
    if op.Validate? {
      FetchOk(cfg.store, s.store, op.tenant, op.key, op.now);
    } else if op.ValidatePublic? {
      FetchGlobalOk(cfg.store, s.store, op.key, op.now);
    } else if op.InvalidateTenant? {
      DropTenantOk(cfg.store, s.store, op.tenant);
    } else if op.Background? {
      if op.loss.Cleanup? || op.loss.LoseLocal? || op.loss.LoseRemote? {
        Runs.LossOk(cfg.store, s.store, op.loss);
      }
    }
    OnlyShrunk(s.store, StoreAfter(cfg, s, op));
  }

  /* ---------- what an operation does to the table ---------- */

  /** An update that names no row of its tenant; it succeeds and is cached all the same. */
  predicate StrayUpdate(s: Sys, op: Op) {
    Updates(op) && FindByKey(s.rows, op.l.tenant, op.l.key).None?
  }

  /** A revocation that marks the row and then fails to read it back. */
  predicate HalfRevoked(s: Sys, op: Op) {
    && op.RevokeLicense? && op.execOk && !op.findOk && FindByKey(s.rows, op.tenant, op.key).Some?
    && s.rows[op.key].status != Revoked
  }

  /** The row a write belongs to, after the operation. */
  predicate HasRow(rows: Table, w: CacheWrite) {
    ColonFree(w.tenant) && FindByKey(rows, w.tenant, w.key).Some? && IsCopy(rows, w.key, w.lic)
  }

  lemma {:induction false} WarmWritesRows(cfg: LicenseStore.Config, store: Store, rows: Table, recent: seq<License>, now: Time)
    requires forall i | 0 <= i < |recent| :: FindByKey(rows, recent[i].tenant, recent[i].key) == Some(recent[i])
    ensures forall w | w in WarmWrites(cfg, store, recent, now) :: FindByKey(rows, w.tenant, w.key) == Some(w.lic)
    decreases |recent|
  {
    if recent != [] {
      WarmWritesRows(cfg, store, rows, recent[..|recent| - 1], now);
    }
  }

  /** Every write but a stray update's has its row. */
  lemma WritesHaveRows(cfg: LicenseSystem.Config, s: Sys, op: Op)
    requires SysOk(cfg, s) && Possible(s, op) && !StrayUpdate(s, op)
    ensures forall w | w in Writes(cfg, s, op) :: HasRow(RowsAfter(s, op), w)
  {
    if Creates(s, op) || Updates(op) {
      SavedHasRow(cfg, s, op);
    } else if op.WarmUp? {
      WarmWritesRows(cfg.store, s.store, s.rows, op.recent, op.now);
    }
  }

  lemma SavedHasRow(cfg: LicenseSystem.Config, s: Sys, op: Op)
    requires Possible(s, op) && (Creates(s, op) || (Updates(op) && FindByKey(s.rows, op.l.tenant, op.l.key).Some?))
    ensures HasRow(RowsAfter(s, op), CacheWrite(op.l.tenant, op.l.key, SavedCopy(cfg, s, op)))
  {
    SavedCore(cfg, s, op);
    assert Core(RowsAfter(s, op)[op.l.key]) == Core(op.l);
  }

  lemma SavedCore(cfg: LicenseSystem.Config, s: Sys, op: Op)
    requires op.CreateLicense? || op.UpdateLicense?
    ensures Core(SavedCopy(cfg, s, op)) == Core(op.l)
  {
  }

  /** Rows stay, with their tenants, and a changed row is written through unless the revocation half failed. */
  lemma RowsStay(cfg: LicenseSystem.Config, s: Sys, op: Op, k: string)
    requires k in s.rows
    ensures var rows := RowsAfter(s, op);
            && k in rows && rows[k].tenant == s.rows[k].tenant
            && (IsCopy(rows, k, s.rows[k])
                || (HalfRevoked(s, op) && op.key == k)
                || exists w | w in Writes(cfg, s, op) :: w.key == k && w.tenant == s.rows[k].tenant)
  {
    if Updates(op) && op.l.key == k && op.l.tenant == s.rows[k].tenant {
      assert Writes(cfg, s, op)[0].key == k;
    } else if Revokes(s, op) && op.key == k {
      assert Writes(cfg, s, op)[0].key == k;
    }
  }

  lemma StepKeepsOk(cfg: LicenseSystem.Config, s: Sys, op: Op)
    requires SysOk(cfg, s) && Possible(s, op)
    ensures SysOk(cfg, Exec(cfg, s, op))
  {
    StepExplained(cfg, s, op);
    RowsStayOk(s, op);
    PlanIdsStay(cfg, s, op);
  }

  lemma RowsStayOk(s: Sys, op: Op)
    requires Possible(s, op) && forall k | k in s.rows :: RowOk(s.rows, k)
    ensures var rows := RowsAfter(s, op); forall k | k in rows :: RowOk(rows, k)
  {
  }

  lemma PlanIdsStay(cfg: LicenseSystem.Config, s: Sys, op: Op)
    requires "" !in s.plans.rows && Possible(s, op)
    ensures "" !in PlansAfter(cfg, s, op).rows
  {
    if op.PlanOp? {
      assert op.plan.CreatePlan? ==> Plans.Identified(op.plan.p, op.plan.freshId).id != "";
    }
  }

  /* ---------- the names other caches use ---------- */

  predicate Named(k: string, prefix: string) {
    prefix < k
  }

  /** The names under which plans and products are filed. */
  predicate Reserved(k: string) {
    Named(k, "plan:") || Named(k, "product:")
  }

  /** Some tenant's row has this key hash. */
  predicate Keyed(s: Sys, k: string) {
    exists id | id in s.tenants.rows :: s.tenants.rows[id].apiKey == k || s.tenants.rows[id].oldKey == k
  }

  /** The operation gives a tenant this key hash. */
  predicate SetsKey(op: Op, k: string) {
    op.TenantOp? && (op.tenantOp.Create? || op.tenantOp.Rotate?) && op.tenantOp.hash == k
  }

  lemma NamedBy(prefix: string, name: string)
    requires name != ""
    ensures Named(prefix + name, prefix)
  {
    assert (prefix + name)[..|prefix|] == prefix;
  }

  /** Another cache stores only for plain tenants, and under a reserved name or a tenant's key hash. */
  lemma IntrusionsAreNamed(cfg: LicenseSystem.Config, s: Sys, op: Op)
    requires SysOk(cfg, s) && Possible(s, op)
    ensures forall f | f in Intrusions(cfg, s, op) ::
              ColonFree(f.tenant) && f.tenant != "" && (Reserved(f.key) || Keyed(s, f.key) || SetsKey(op, f.key))
  {
    forall f | f in Intrusions(cfg, s, op)
      ensures ColonFree(f.tenant) && f.tenant != "" && (Reserved(f.key) || Keyed(s, f.key) || SetsKey(op, f.key))
    {
      if op.TenantOp? {
        TenantIntrusion(s, op, f);
      } else if op.PutProduct? {
        NamedBy("product:", op.code);
      } else if op.PlanOp? {
        PlanIntrusion(cfg, s, op, f);
      } else {
        SaveIntrusion(cfg, s, op, f);
      }
    }
  }

  lemma TenantIntrusion(s: Sys, op: Op, f: Place)
    requires op.TenantOp? && Tenants.Plain(op.tenantOp) && f in Tenants.PlacesBy(s.tenants, op.tenantOp)
    ensures ColonFree(f.tenant) && f.tenant != "" && (Keyed(s, f.key) || SetsKey(op, f.key))
  {
    assert ColonFree(Tenants.BY_KEY);
  }

  lemma SaveIntrusion(cfg: LicenseSystem.Config, s: Sys, op: Op, f: Place)
    requires (Creates(s, op) || Updates(op)) && Possible(s, op) && "" !in s.plans.rows
    requires var e := PlanElsewhere(cfg, s, Submitted(op), op.planOk, op.now); e.Stores? && f in e.places
    ensures ColonFree(f.tenant) && f.tenant != "" && Reserved(f.key)
  {
    NamedBy("plan:", op.l.planId.value);
  }

  lemma PlanIntrusion(cfg: LicenseSystem.Config, s: Sys, op: Op, f: Place)
    requires SysOk(cfg, s) && op.PlanOp? && Possible(s, op) && Plans.PutBy(cfg.plans, s.plans, op.plan) == Some(f)
    ensures ColonFree(f.tenant) && f.tenant != "" && Reserved(f.key)
  {
    var id := f.key[5..];
    assert f.key == "plan:" + id && id != "";
    NamedBy("plan:", id);
  }

  /**
   No other cache can store anything under this key: there is no second level, or the key is neither a plan's
   nor a product's name nor, now or by any of these operations, the hash of a tenant's key.
   */
  predicate Secluded(s: Sys, ops: seq<Op>, k: string) {
    || s.store.l2.None?
    || (k != "" && !Reserved(k) && !Keyed(s, k) && forall i | 0 <= i < |ops| :: !SetsKey(ops[i], k))
  }

  predicate Intruded(cfg: LicenseSystem.Config, s: Sys, op: Op, k: string) {
    exists f | f in Intrusions(cfg, s, op) :: f.key == k
  }

  lemma SecludedIsNotIntruded(cfg: LicenseSystem.Config, s: Sys, op: Op, k: string)
    requires SysOk(cfg, s) && Possible(s, op) && Secluded(s, [op], k)
    ensures !Intruded(cfg, s, op, k)
  {
    assert SetsKey([op][0], k) == SetsKey(op, k);
    IntrusionsAreNamed(cfg, s, op);
  }

  lemma {:induction false} WarmKeepsLevel(cfg: LicenseStore.Config, st: Store, rows: seq<License>, now: Time)
    ensures WarmAll(cfg, st, rows, now).l2.Some? == st.l2.Some?
    decreases |rows|
  {
    if rows != [] {
      WarmKeepsLevel(cfg, st, rows[..|rows| - 1], now);
    }
  }

  /** There is a second level from the start or never. */
  lemma LevelStays(cfg: LicenseSystem.Config, s: Sys, op: Op)
    ensures StoreAfter(cfg, s, op).l2.Some? == s.store.l2.Some?
  {
    if op.WarmUp? {
      WarmKeepsLevel(cfg.store, s.store, op.recent, op.now);
    } else if op.Activate? || op.Deactivate? {
      ResolveKeepsLevel(cfg, s, op.tenant, op.key, op.dbOk, op.now);
    } else if op.TenantOp? {
      assert Tenants.OnLicenses(cfg.tenants, s.tenants, op.tenantOp, s.store).l2.Some? == s.store.l2.Some?;
    }
  }

  lemma ResolveKeepsLevel(cfg: LicenseSystem.Config, s: Sys, t: string, k: string, dbOk: bool, now: Time)
    ensures ResolveLicense(cfg, s, t, k, dbOk, now).0.l2.Some? == s.store.l2.Some?
  {
  }

  lemma KeysStay(cfg: LicenseSystem.Config, s: Sys, op: Op, k: string)
    requires k != "" && !Keyed(s, k) && !SetsKey(op, k)
    ensures !Keyed(Exec(cfg, s, op), k)
  {
    if op.TenantOp? {
      forall id | id in TenantsAfter(cfg, s, op).rows
        ensures var t := TenantsAfter(cfg, s, op).rows[id]; t.apiKey != k && t.oldKey != k
      {
        if id in s.tenants.rows {
          Tenants.StepKeys(cfg.tenants, s.tenants, op.tenantOp, id);
        }
      }
    }
  }

  /** A secluded key is secluded at every step of the run. */
  lemma {:induction false} SecludedAt(cfg: LicenseSystem.Config, s: Sys, ops: seq<Op>, i: nat, k: string)
    requires i < |ops| && Secluded(s, ops, k)
    ensures Run(cfg, s, ops[..i]).store.l2.Some? == s.store.l2.Some?
    ensures Secluded(Run(cfg, s, ops[..i]), [ops[i]], k)
  {
    if i > 0 {
      SecludedAt(cfg, s, ops, i - 1, k);
      var mid, op := Run(cfg, s, ops[..i - 1]), ops[i - 1];
      assert Run(cfg, s, ops[..i]) == Exec(cfg, mid, op) by {
        assert ops[..i][..i - 1] == ops[..i - 1];
      }
      SeclusionStays(cfg, mid, op, ops[i], k);
    }
  }

  lemma SeclusionStays(cfg: LicenseSystem.Config, s: Sys, op: Op, next: Op, k: string)
    requires Secluded(s, [op], k) && (s.store.l2.Some? ==> !SetsKey(next, k))
    ensures Exec(cfg, s, op).store.l2.Some? == s.store.l2.Some? && Secluded(Exec(cfg, s, op), [next], k)
  {
    LevelStays(cfg, s, op);
    if s.store.l2.Some? {
      assert !SetsKey([op][0], k);
      KeysStay(cfg, s, op, k);
    }
  }

  /* ---------- coherence ---------- */

  /** Whatever is cached under this key, for any tenant or for none, agrees with a row of that tenant. */
  ghost predicate CoherentAt(s: Sys, k: string) {
    ScopedCoherent(s.store, s.rows, k) && GlobalCoherent(s.store, s.rows, k)
  }

  ghost predicate ScopedCoherent(store: Store, rows: Table, k: string) {
    forall t, v {:trigger Holds(store, CacheKey(t, k), v)} ::
      ColonFree(t) && Holds(store, CacheKey(t, k), v) ==> FindByKey(rows, t, k).Some? && IsCopy(rows, k, v)
  }

  ghost predicate GlobalCoherent(store: Store, rows: Table, k: string) {
    forall v {:trigger Holds(store, GlobalKey(k), v)} :: Holds(store, GlobalKey(k), v) ==> IsCopy(rows, k, v)
  }

  predicate IsCopy(rows: Table, k: string, v: License) {
    k in rows && Core(v) == Core(rows[k])
  }

  predicate EmptyCache(s: Sys) {
    s.store.l1 == [] && (s.store.l2.Some? ==> s.store.l2.value == map[])
  }

  lemma TouchesKey(w: CacheWrite, t: string, k: string)
    requires ColonFree(t) && ColonFree(w.tenant)
    ensures Touches(w, CacheKey(t, k)) <==> w.tenant == t && w.key == k
    ensures Touches(w, GlobalKey(k)) <==> w.key == k
  {
    CacheKeyInjective(t, k, w.tenant, w.key);
    GlobalApart(w.key, k);
    NotGlobal(t, k, w.key);
    NotGlobal(w.tenant, w.key, k);
  }

  lemma NotGlobal(t: string, k: string, k': string)
    ensures CacheKey(t, k) != GlobalKey(k')
  {
    assert CacheKey(t, k)[1] == 'o' && GlobalKey(k')[1] == 'k';
  }

  /** The operation itself may part cache and table on this key. */
  predicate Disorderly(s: Sys, op: Op, k: string) {
    (StrayUpdate(s, op) && op.l.key == k) || (HalfRevoked(s, op) && op.key == k)
  }

  predicate GoesAstray(cfg: LicenseSystem.Config, s: Sys, op: Op, k: string) {
    Disorderly(s, op, k) || Intruded(cfg, s, op, k)
  }

  /** The writes of an operation under one key: all for plain tenants, and with their row unless astray. */
  lemma WritesUnder(cfg: LicenseSystem.Config, s: Sys, op: Op, k: string)
    requires SysOk(cfg, s) && Possible(s, op)
    ensures forall w | w in Writes(cfg, s, op) :: ColonFree(w.tenant)
    ensures !(StrayUpdate(s, op) && op.l.key == k) ==> forall w | w in Writes(cfg, s, op) && w.key == k :: HasRow(RowsAfter(s, op), w)
  {
    if !StrayUpdate(s, op) {
      WritesHaveRows(cfg, s, op);
    }
  }

  /** Rows that stay and writes with rows of their own keep what is cached under a key coherent. */
  ghost predicate Moves(store: Store, rows: Table, store': Store, rows': Table, ws: seq<CacheWrite>, fs: seq<Place>, k: string) {
    && Explained(store, store', ws, fs)
    && (forall w | w in ws :: ColonFree(w.tenant))
    && (forall f | f in fs :: ColonFree(f.tenant) && f.key != k)
    && (forall w | w in ws && w.key == k :: FindByKey(rows', w.tenant, k).Some? && IsCopy(rows', k, w.lic))
    && (k in rows ==>
          && k in rows' && rows'[k].tenant == rows[k].tenant
          && (IsCopy(rows', k, rows[k]) || exists w | w in ws :: w.key == k && w.tenant == rows[k].tenant))
  }

  /** A place apart covers neither index of the key. */
  lemma NotCovered(fs: seq<Place>, t: string, k: string)
    requires ColonFree(t) && forall f | f in fs :: ColonFree(f.tenant) && f.key != k
    ensures !Covers(fs, CacheKey(t, k)) && !Covers(fs, GlobalKey(k))
  {
    forall f | f in fs ensures CacheKey(t, k) != KeyAt(f) && GlobalKey(k) != KeyAt(f) {
      CacheKeyInjective(t, k, f.tenant, f.key);
      NotGlobal(f.tenant, f.key, k);
    }
  }

  lemma ScopedMoves(store: Store, rows: Table, store': Store, rows': Table, ws: seq<CacheWrite>, fs: seq<Place>,
                    k: string, t: string, v: License)
    requires Moves(store, rows, store', rows', ws, fs, k) && ScopedCoherent(store, rows, k)
    requires ColonFree(t) && Holds(store', CacheKey(t, k), v)
    ensures FindByKey(rows', t, k).Some? && IsCopy(rows', k, v)
  {
    NotCovered(fs, t, k);
    forall w | w in ws ensures Touches(w, CacheKey(t, k)) <==> w.tenant == t && w.key == k {
      TouchesKey(w, t, k);
    }
  }

  lemma GlobalMoves(store: Store, rows: Table, store': Store, rows': Table, ws: seq<CacheWrite>, fs: seq<Place>, k: string, v: License)
    requires Moves(store, rows, store', rows', ws, fs, k) && GlobalCoherent(store, rows, k) && Holds(store', GlobalKey(k), v)
    ensures IsCopy(rows', k, v)
  {
    NotCovered(fs, "", k);
    forall w | w in ws ensures Touches(w, GlobalKey(k)) <==> w.key == k {
      TouchesKey(w, w.tenant, k);
    }
  }

  lemma StepMoves(cfg: LicenseSystem.Config, s: Sys, op: Op, k: string)
    requires SysOk(cfg, s) && Possible(s, op) && !GoesAstray(cfg, s, op, k)
    ensures Moves(s.store, s.rows, Exec(cfg, s, op).store, Exec(cfg, s, op).rows, Writes(cfg, s, op), Intrusions(cfg, s, op), k)
  {
    StepExplained(cfg, s, op);
    WritesUnder(cfg, s, op, k);
    IntrusionsAreNamed(cfg, s, op);
    if k in s.rows {
      RowsStay(cfg, s, op, k);
    }
  }

  lemma StepKeepsCoherentAt(cfg: LicenseSystem.Config, s: Sys, op: Op, k: string)
    requires SysOk(cfg, s) && Possible(s, op) && CoherentAt(s, k) && !GoesAstray(cfg, s, op, k)
    ensures CoherentAt(Exec(cfg, s, op), k)
  {
    var s', ws, fs := Exec(cfg, s, op), Writes(cfg, s, op), Intrusions(cfg, s, op);
    StepMoves(cfg, s, op, k);
    assert ScopedCoherent(s'.store, s'.rows, k) by {
      forall t, v {:trigger Holds(s'.store, CacheKey(t, k), v)} | ColonFree(t) && Holds(s'.store, CacheKey(t, k), v)
        ensures FindByKey(s'.rows, t, k).Some? && IsCopy(s'.rows, k, v)
      {
        ScopedMoves(s.store, s.rows, s'.store, s'.rows, ws, fs, k, t, v);
      }
    }
    assert GlobalCoherent(s'.store, s'.rows, k) by {
      forall v {:trigger Holds(s'.store, GlobalKey(k), v)} | Holds(s'.store, GlobalKey(k), v) ensures IsCopy(s'.rows, k, v) {
        GlobalMoves(s.store, s.rows, s'.store, s'.rows, ws, fs, k, v);
      }
    }
  }

  /** Some cached license of the row's own tenant, or under the key alone. */
  ghost predicate CachedSomewhere(s: Sys, t: string, k: string) {
    exists v :: Holds(s.store, CacheKey(t, k), v) || Holds(s.store, GlobalKey(k), v)
  }

  /** The exact condition under which an operation parts cache and table on a key. */
  ghost predicate Parts(cfg: LicenseSystem.Config, s: Sys, op: Op, k: string) {
    || (StrayUpdate(s, op) && op.l.key == k)
    || (HalfRevoked(s, op) && op.key == k && CachedSomewhere(s, op.tenant, k))
    || Intruded(cfg, s, op, k)
  }

  lemma StrayUpdateParts(cfg: LicenseSystem.Config, s: Sys, op: Op)
    requires SysOk(cfg, s) && StrayUpdate(s, op)
    ensures !CoherentAt(Exec(cfg, s, op), op.l.key)
  {
    var s', k, v := Exec(cfg, s, op), op.l.key, SavedCopy(cfg, s, op);
    var mid := Disturbed(s.store, PlanElsewhere(cfg, s, Submitted(op), op.planOk, op.now));
    DisturbOk(cfg.store, s.store, PlanElsewhere(cfg, s, Submitted(op), op.planOk, op.now));
    SavedCore(cfg, s, op);
    PutVisible(cfg.store, mid, op.l.tenant, k, v, op.now);
    assert Holds(s'.store, GlobalKey(k), v);
    assert !IsCopy(s'.rows, k, v) by {
      assert k in s'.rows ==> Core(v).tenant != Core(s'.rows[k]).tenant;
    }
  }

  /** A half-failed revocation leaves the cache alone and changes the row. */
  lemma HalfRevokedPartsIff(cfg: LicenseSystem.Config, s: Sys, op: Op)
    requires SysOk(cfg, s) && HalfRevoked(s, op) && CoherentAt(s, op.key)
    ensures CoherentAt(Exec(cfg, s, op), op.key) <==> !CachedSomewhere(s, op.tenant, op.key)
  {
    var s', k := Exec(cfg, s, op), op.key;
    if v :| Holds(s.store, CacheKey(op.tenant, k), v) || Holds(s.store, GlobalKey(k), v) {
      assert RowOk(s.rows, k);
      assert Core(v).status == Core(s.rows[k]).status && Core(s'.rows[k]).status == Revoked;
    }
  }

  /** A place where another cache has left its entry holds the blank license, which no row of a tenant matches. */
  lemma IntrusionParts(cfg: LicenseSystem.Config, s: Sys, op: Op, f: Place)
    requires SysOk(cfg, s) && Possible(s, op) && f in Intrusions(cfg, s, op)
    ensures Holds(Exec(cfg, s, op).store, KeyAt(f), BLANK) && !CoherentAt(Exec(cfg, s, op), f.key)
  {
    var s' := Exec(cfg, s, op);
    IntrusionsAreNamed(cfg, s, op);
    IntrusionHeld(cfg, s, op, f);
    assert FindByKey(s'.rows, f.tenant, f.key).Some? && IsCopy(s'.rows, f.key, BLANK)
       ==> Core(BLANK).tenant == Core(s'.rows[f.key]).tenant;
    assert !ScopedCoherent(s'.store, s'.rows, f.key);
  }

  lemma IntrusionHeld(cfg: LicenseSystem.Config, s: Sys, op: Op, f: Place)
    requires SysOk(cfg, s) && Possible(s, op) && f in Intrusions(cfg, s, op)
    ensures Holds(StoreAfter(cfg, s, op), KeyAt(f), BLANK)
  {
    var e := ElsewhereBy(cfg, s, op);
    DisturbOk(cfg.store, s.store, e);
    if op.CreateLicense? || op.UpdateLicense? {
      CacheKeyInjective(f.tenant, f.key, op.l.tenant, op.l.key);
      PutSparesRemote(cfg.store, Disturbed(s.store, e), op.l.tenant, op.l.key, SavedCopy(cfg, s, op), op.now, KeyAt(f));
    }
  }

  lemma PutSparesRemote(cfg: LicenseStore.Config, st: Store, t: string, k: string, lic: License, now: Time, ck: string)
    requires st.l2.Some? && ck in st.l2.value && ck != CacheKey(t, k)
    ensures var l2 := Put(cfg, st, t, k, lic, now).l2; l2.Some? && ck in l2.value && l2.value[ck] == st.l2.value[ck]
  {
  }

  /**
   An operation keeps what is cached under a key coherent with the table if and only if it is not an update
   without a row, not a revocation that fails half-way on a cached license, and no other cache stores its
   entry under that key in it.
   */
  lemma StepKeepsCoherentIff(cfg: LicenseSystem.Config, s: Sys, op: Op, k: string)
    requires SysOk(cfg, s) && Possible(s, op) && CoherentAt(s, k)
    ensures CoherentAt(Exec(cfg, s, op), k) <==> !Parts(cfg, s, op, k)
  {
    if Intruded(cfg, s, op, k) {
      var f :| f in Intrusions(cfg, s, op) && f.key == k;
      IntrusionParts(cfg, s, op, f);
    } else if StrayUpdate(s, op) && op.l.key == k {
      StrayUpdateParts(cfg, s, op);
    } else if HalfRevoked(s, op) && op.key == k {
      HalfRevokedPartsIff(cfg, s, op);
    } else {
      StepKeepsCoherentAt(cfg, s, op, k);
    }
  }

  /**
   A successful update keeps its key coherent if and only if its tenant has the row: one that matches no row,
   of any tenant or of another, leaves a license in the cache that the table does not have.
   */
  lemma UpdateKeepsCoherentIff(cfg: LicenseSystem.Config, s: Sys, op: Op)
    requires SysOk(cfg, s) && Possible(s, op) && Updates(op) && CoherentAt(s, op.l.key)
    ensures CoherentAt(Exec(cfg, s, op), op.l.key) <==> FindByKey(s.rows, op.l.tenant, op.l.key).Some?
  {
    StepKeepsCoherentIff(cfg, s, op, op.l.key);
    OwnKeySpared(cfg, s, op);
  }

  /** A save leaves no other cache's entry under its own key. */
  lemma OwnKeySpared(cfg: LicenseSystem.Config, s: Sys, op: Op)
    requires op.CreateLicense? || op.UpdateLicense?
    ensures !Intruded(cfg, s, op, op.l.key)
  {
    var e := ElsewhereBy(cfg, s, op);
    if e.Stores? {
      assert |e.places| == 1 && e.places[0].tenant == op.l.tenant;
    }
  }

  /** A revocation keeps its key coherent if and only if it does not fail half-way on a license that is cached. */
  lemma RevokeKeepsCoherentIff(cfg: LicenseSystem.Config, s: Sys, op: Op)
    requires SysOk(cfg, s) && Possible(s, op) && op.RevokeLicense? && CoherentAt(s, op.key)
    ensures CoherentAt(Exec(cfg, s, op), op.key) <==> !(HalfRevoked(s, op) && CachedSomewhere(s, op.tenant, op.key))
  {
    StepKeepsCoherentIff(cfg, s, op, op.key);
  }

  /** No update without a row and no half-failed revocation of this key. */
  predicate OrderlyRun(cfg: LicenseSystem.Config, s: Sys, ops: seq<Op>, k: string) {
    forall i | 0 <= i < |ops| :: !Disorderly(Run(cfg, s, ops[..i]), ops[i], k)
  }

  predicate NeverAstray(cfg: LicenseSystem.Config, s: Sys, ops: seq<Op>, k: string) {
    forall i | 0 <= i < |ops| :: !GoesAstray(cfg, Run(cfg, s, ops[..i]), ops[i], k)
  }

  lemma {:induction false} RunKeepsOk(cfg: LicenseSystem.Config, s: Sys, ops: seq<Op>)
    requires SysOk(cfg, s) && PossibleRun(cfg, s, ops)
    ensures SysOk(cfg, Run(cfg, s, ops))
    decreases |ops|
  {
    if ops != [] {
      var before := ops[..|ops| - 1];
      forall i | 0 <= i < |before| ensures before[..i] == ops[..i] {
      }
      RunKeepsOk(cfg, s, before);
      StepKeepsOk(cfg, Run(cfg, s, before), ops[|ops| - 1]);
    }
  }

  lemma PossiblePrefix(cfg: LicenseSystem.Config, s: Sys, ops: seq<Op>, i: nat)
    requires PossibleRun(cfg, s, ops) && i <= |ops|
    ensures PossibleRun(cfg, s, ops[..i])
  {
    forall j | 0 <= j < i ensures ops[..i][..j] == ops[..j] && ops[..i][j] == ops[j] {
    }
  }

  /** A run is the run before its last operation and that operation. */
  lemma LastOperation(cfg: LicenseSystem.Config, s: Sys, ops: seq<Op>)
    requires PossibleRun(cfg, s, ops) && ops != []
    ensures var before, op := ops[..|ops| - 1], ops[|ops| - 1];
            && PossibleRun(cfg, s, before) && Possible(Run(cfg, s, before), op)
            && Run(cfg, s, ops) == Exec(cfg, Run(cfg, s, before), op)
  {
    PossiblePrefix(cfg, s, ops, |ops| - 1);
  }

  /** Forgetting a tenant leaves none of its licenses cached under its keys; what is cached for others and by key alone stays. */
  lemma TenantIsForgotten(cfg: LicenseSystem.Config, s: Sys, t: string, other: string, key: string, lic: License)
    requires SysOk(cfg, s) && ColonFree(t) && ColonFree(other)
    ensures var s' := Exec(cfg, s, InvalidateTenant(t));
            && s'.rows == s.rows
            && !Holds(s'.store, CacheKey(t, key), lic)
            && (other != t ==> (Holds(s'.store, CacheKey(other, key), lic) <==> Holds(s.store, CacheKey(other, key), lic)))
            && (Holds(s'.store, GlobalKey(key), lic) <==> Holds(s.store, GlobalKey(key), lic))
  {
    DropTenantOk(cfg.store, s.store, t);
    CacheKeyInjective(t, key, t, key);
    CacheKeyInjective(other, key, t, key);
    GlobalApart(key, t);
  }

  function Sought(op: Op): string
    requires op.Validate? || op.ValidatePublic?
  {
    if op.Validate? then CacheKey(op.tenant, op.key) else GlobalKey(op.key)
  }

  /** A validation that finds nothing leaves, if there is room, a note that answers the next ones until it expires. */
  lemma FailedValidationIsRemembered(cfg: LicenseSystem.Config, s: Sys, op: Op, later: Time)
    requires SysOk(cfg, s) && (op.Validate? || op.ValidatePublic?) && (cfg.store.ttlNegative <= 0 || later <= op.now + cfg.store.ttlNegative)
    requires Read(s.store.l1, Sought(op), op.now).1.None? && (op.Validate? ==> RemoteGet(s.store.l2, Sought(op), op.now).None?)
    requires |Read(s.store.l1, Sought(op), op.now).0| < cfg.store.cap * 9 / 10
    ensures var e := Read(Exec(cfg, s, op).store.l1, Sought(op), later).1; e.Some? && e.value.payload.None?
  {
    var kept := Read(s.store.l1, Sought(op), op.now).0;
    ReadOk(s.store.l1, cfg.store.cap, Sought(op), op.now);
    WriteOk(kept, cfg.store.cap, Sought(op), None, cfg.store.ttlNegative, op.now);
    assert Exec(cfg, s, op).store.l1 == Write(kept, cfg.store.cap, Sought(op), None, cfg.store.ttlNegative, op.now);
  }

  /** An orderly run never goes astray on a key no other cache can name. */
  lemma OrderlyIsNeverAstray(cfg: LicenseSystem.Config, s: Sys, ops: seq<Op>, k: string)
    requires SysOk(cfg, s) && PossibleRun(cfg, s, ops) && OrderlyRun(cfg, s, ops, k) && Secluded(s, ops, k)
    ensures NeverAstray(cfg, s, ops, k)
  {
    forall i | 0 <= i < |ops| ensures !GoesAstray(cfg, Run(cfg, s, ops[..i]), ops[i], k) {
      PossiblePrefix(cfg, s, ops, i);
      RunKeepsOk(cfg, s, ops[..i]);
      SecludedAt(cfg, s, ops, i, k);
      SecludedIsNotIntruded(cfg, Run(cfg, s, ops[..i]), ops[i], k);
    }
  }

  lemma {:induction false} RunKeepsCoherentAt(cfg: LicenseSystem.Config, s: Sys, ops: seq<Op>, k: string)
    requires SysOk(cfg, s) && CoherentAt(s, k) && PossibleRun(cfg, s, ops) && NeverAstray(cfg, s, ops, k)
    ensures SysOk(cfg, Run(cfg, s, ops)) && CoherentAt(Run(cfg, s, ops), k)
    decreases |ops|
  {
    if ops != [] {
      var before, op := ops[..|ops| - 1], ops[|ops| - 1];
      forall i | 0 <= i < |before| ensures before[..i] == ops[..i] {
      }
      RunKeepsCoherentAt(cfg, s, before, k);
      StepKeepsOk(cfg, Run(cfg, s, before), op);
      StepKeepsCoherentAt(cfg, Run(cfg, s, before), op, k);
    }
  }

  /** From an empty cache, every run that is orderly on a secluded key keeps it coherent with the table. */
  lemma RunIsCoherent(cfg: LicenseSystem.Config, s: Sys, ops: seq<Op>, k: string)
    requires SysOk(cfg, s) && EmptyCache(s) && PossibleRun(cfg, s, ops) && OrderlyRun(cfg, s, ops, k) && Secluded(s, ops, k)
    ensures SysOk(cfg, Run(cfg, s, ops)) && CoherentAt(Run(cfg, s, ops), k)
  {
    OrderlyIsNeverAstray(cfg, s, ops, k);
    RunKeepsCoherentAt(cfg, s, ops, k);
  }

  /** What a coherent cache answers belongs to the tenant that asked and agrees with its row. */
  lemma AnswersHaveRows(cfg: LicenseSystem.Config, s: Sys, t: string, k: string, now: Time)
    requires SysOk(cfg, s) && CoherentAt(s, k) && ColonFree(t)
    ensures var scoped := Fetch(cfg.store, s.store, t, k, now).1;
            var global := FetchGlobal(cfg.store, s.store, k, now).1;
            && (scoped.Some? ==> FindByKey(s.rows, t, k).Some? && IsCopy(s.rows, k, scoped.value))
            && (global.Some? ==> IsCopy(s.rows, k, global.value))
  {
    FetchOk(cfg.store, s.store, t, k, now);
    FetchGlobalOk(cfg.store, s.store, k, now);
  }
}
