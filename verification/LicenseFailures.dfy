/** Runs from an empty system in which cache and table part, one for each condition the theorems need. */
module LicenseFailures {
  import opened Common
  import opened Domain
  import opened Lru
  import opened LicenseStore
  import opened Features
  import opened LicenseSystem
  import opened LicenseCoherence
  import opened LicenseFreshness
  import opened LicenseRevocation
  import Plans = PlanSystem
  import Tenants = TenantSystem
  import Validity
  import Validation
  import Auth = TenantAuth
  import Runs = LicenseStoreRuns

  /** Nothing stored, nothing cached, no second level. */
  const START: Sys := Sys(map[], Store([], None), Plans.State(map[], []), Tenants.State(map[], []))

  /** Room for a handful of entries that do not expire. */
  predicate Roomy(cfg: LicenseSystem.Config) {
    cfg.store.cap >= 10 && cfg.store.ttlL1 <= 0 && cfg.plans.cap > 0 && cfg.plans.ttl <= 0
  }

  /** An unlimited product license for product "p" with key "k". */
  function Example(tenant: string): License {
    License("lic_1", tenant, ProductKind, None, Some("p"), "k", Active, None, None, -1, 0, ["f"], [], [],
            Trial(false, None, []), [], 0, "")
  }

  function Creating(l: License): Op {
    CreateLicense(l, "", l.features, true, true, 0)
  }

  function Updating(l: License): Op {
    UpdateLicense(l, l.features, true, true, 0)
  }

  lemma RunSnoc(cfg: LicenseSystem.Config, s: Sys, ops: seq<Op>, op: Op)
    ensures Run(cfg, s, ops + [op]) == Exec(cfg, Run(cfg, s, ops), op)
  {
    assert (ops + [op])[..|ops|] == ops;
  }

  lemma RunOne(cfg: LicenseSystem.Config, s: Sys, a: Op)
    ensures Run(cfg, s, [a]) == Exec(cfg, s, a)
  {
    TwoIsSnoc(a, a);
    RunSnoc(cfg, s, [], a);
  }

  lemma RunTwo(cfg: LicenseSystem.Config, s: Sys, a: Op, b: Op)
    ensures Run(cfg, s, [a, b]) == Exec(cfg, Exec(cfg, s, a), b)
  {
    TwoIsSnoc(a, b);
    RunSnoc(cfg, s, [a], b);
    RunOne(cfg, s, a);
  }

  lemma RunThree(cfg: LicenseSystem.Config, s: Sys, a: Op, b: Op, c: Op)
    ensures Run(cfg, s, [a, b, c]) == Exec(cfg, Exec(cfg, Exec(cfg, s, a), b), c)
  {
    ThreeIsSnoc(a, b, c);
    RunSnoc(cfg, s, [a, b], c);
    RunTwo(cfg, s, a, b);
  }

  lemma StartOk(cfg: LicenseSystem.Config)
    requires Roomy(cfg)
    ensures SysOk(cfg, START) && EmptyCache(START) && forall k :: CoherentAt(START, k)
  {
  }

  lemma ExampleIsGood(tenant: string)
    requires tenant != ""
    ensures Acceptable(Example(tenant)) && Stored(Example(tenant)) == Example(tenant)
    ensures Validity.Judge(Example(tenant).(finalFeatures := ["f"]), "", 0).Valid?
  {
  }

  lemma SavesExample(cfg: LicenseSystem.Config, s: Sys, op: Op, tenant: string)
    requires op == Creating(Example(tenant)) || op == Updating(Example(tenant))
    ensures SavedCopy(cfg, s, op) == Example(tenant).(finalFeatures := ["f"])
  {
  }

  /** An update that matches no row at all: the table stays empty and both look-ups answer a valid license. */
  lemma UpdateWithoutRow(cfg: LicenseSystem.Config)
    requires Roomy(cfg)
    ensures var s := Run(cfg, START, [Updating(Example("a"))]);
            var scoped := Fetch(cfg.store, s.store, "a", "k", 0).1;
            && s.rows == map[]
            && scoped.Some? && FetchGlobal(cfg.store, s.store, "k", 0).1 == scoped
            && Validity.Judge(scoped.value, "", 0).Valid?
            && !CoherentAt(s, "k")
  {
    var op := Updating(Example("a"));
    RunOne(cfg, START, op);
    StartOk(cfg);
    ExampleIsGood("a");
    SavesExample(cfg, START, op, "a");
    SavedIsAnswered(cfg, START, op, 0);
    UpdateKeepsCoherentIff(cfg, START, op);
  }

  /** While there is room a write displaces nothing under other keys and adds at most its two entries. */
  lemma PutWithRoom(cfg: LicenseStore.Config, st: Store, t: string, k: string, lic: License, now: Time)
    requires |st.l1| + 2 <= cfg.cap
    ensures |Put(cfg, st, t, k, lic, now).l1| <= |st.l1| + 2
    ensures forall it | it in st.l1 && it.key != CacheKey(t, k) && it.key != GlobalKey(k) :: it in Put(cfg, st, t, k, lic, now).l1
  {
    var mid := Write(st.l1, cfg.cap, CacheKey(t, k), Some(lic), cfg.ttlL1, now);
    WriteWithRoom(st.l1, cfg.cap, CacheKey(t, k), Some(lic), cfg.ttlL1, now);
    WriteWithRoom(mid, cfg.cap, GlobalKey(k), Some(lic), cfg.ttlL1, now);
  }

  lemma ItemIsAnswered(cfg: LicenseStore.Config, st: Store, t: string, k: string, v: License, now: Time)
    requires StoreOk(cfg, st) && Item(CacheKey(t, k), Entry(Some(v), None)) in st.l1
    ensures Fetch(cfg, st, t, k, now).1 == Some(v)
  {
    LookupInDistinct(st.l1, Item(CacheKey(t, k), Entry(Some(v), None)));
  }

  /** What one tenant has cached under a key survives another tenant's write of that key. */
  lemma OtherTenantStays(cfg: LicenseStore.Config, st: Store, t: string, u: string, k: string, v: License, w: License)
    requires StoreOk(cfg, st) && |st.l1| + 4 <= cfg.cap && cfg.ttlL1 <= 0 && ColonFree(t) && ColonFree(u) && t != u
    ensures var st1 := Put(cfg, st, t, k, v, 0);
            Fetch(cfg, st1, t, k, 0).1 == Some(v) && Fetch(cfg, Put(cfg, st1, u, k, w, 0), t, k, 0).1 == Some(v)
  {
    var st1, it := Put(cfg, st, t, k, v, 0), Item(CacheKey(t, k), Entry(Some(v), None));
    PutOk(cfg, st, t, k, v, 0);
    PutWithRoom(cfg, st, t, k, v, 0);
    PutVisible(cfg, st, t, k, v, 0);
    ItemIsAnswered(cfg, st1, t, k, v, 0);
    PutOk(cfg, st1, u, k, w, 0);
    CacheKeyInjective(t, k, u, k);
    NotGlobal(t, k, k);
    PutWithRoom(cfg, st1, u, k, w, 0);
    ItemIsAnswered(cfg, Put(cfg, st1, u, k, w, 0), t, k, v, 0);
  }

  const FOREIGN: License := Example("b").(finalFeatures := ["f"])
  const REVOKE: Op := RevokeLicense("a", "k", true, true, 0)

  lemma StrayStep(cfg: LicenseSystem.Config, s: Sys)
    requires s.rows == map["k" := Example("a")]
    ensures var s' := Exec(cfg, s, Updating(Example("b")));
            s'.rows == s.rows && s'.store == Put(cfg.store, s.store, "b", "k", FOREIGN, 0)
  {
    ExampleIsGood("b");
    SavesExample(cfg, s, Updating(Example("b")), "b");
  }

  lemma RevokeStep(cfg: LicenseSystem.Config, s: Sys)
    requires s.rows == map["k" := Example("a")]
    ensures var row, s' := Example("a").(status := Revoked), Exec(cfg, s, REVOKE);
            Revokes(s, REVOKE) && s'.rows == map["k" := row] && s'.store == Put(cfg.store, s.store, "a", "k", row, 0)
  {
  }

  lemma CreateStep(cfg: LicenseSystem.Config)
    requires Roomy(cfg)
    ensures var s := Exec(cfg, START, Creating(Example("a")));
            && StoreOk(cfg.store, s.store) && |s.store.l1| <= 2 && s.rows == map["k" := Example("a")]
            && Fetch(cfg.store, s.store, "a", "k", 0).1 == Some(Example("a").(finalFeatures := ["f"]))
  {
    var create := Creating(Example("a"));
    StartOk(cfg);
    ExampleIsGood("a");
    SavesExample(cfg, START, create, "a");
    var copy := SavedCopy(cfg, START, create);
    assert StoreAfter(cfg, START, create) == Put(cfg.store, START.store, "a", "k", copy, 0);
    PutOk(cfg.store, START.store, "a", "k", copy, 0);
    PutWithRoom(cfg.store, START.store, "a", "k", copy, 0);
    PutThenFetch(cfg.store, START.store, "a", "k", copy, 0, 0);
  }

  /**
   Tenant b updates a key that tenant a owns. Then b's look-up answers a valid license although the row is
   a's, and still does after a's license has been revoked without error.
   */
  lemma StrayUpdateOutlivesRevocation(cfg: LicenseSystem.Config)
    requires Roomy(cfg)
    ensures var create, stray := Creating(Example("a")), Updating(Example("b"));
            var s2, s3 := Run(cfg, START, [create, stray]), Run(cfg, START, [create, stray, REVOKE]);
            && Revokes(s2, REVOKE) && s3.rows == map["k" := Example("a").(status := Revoked)]
            && Fetch(cfg.store, s2.store, "b", "k", 0).1 == Some(FOREIGN)
            && Fetch(cfg.store, s3.store, "b", "k", 0).1 == Some(FOREIGN)
            && Validity.Judge(FOREIGN, "", 0).Valid?
  {
    var create, stray := Creating(Example("a")), Updating(Example("b"));
    RunTwo(cfg, START, create, stray);
    RunThree(cfg, START, create, stray, REVOKE);
    CreateStep(cfg);
    ExampleIsGood("b");
    StrayThenRevoke(cfg, Exec(cfg, START, create), stray);
  }

  lemma StrayThenRevoke(cfg: LicenseSystem.Config, s: Sys, stray: Op)
    requires Roomy(cfg) && StoreOk(cfg.store, s.store) && |s.store.l1| <= 2 && s.rows == map["k" := Example("a")]
    requires stray == Updating(Example("b"))
    ensures var s2 := Exec(cfg, s, stray);
            var s3 := Exec(cfg, s2, REVOKE);
            && Revokes(s2, REVOKE) && s3.rows == map["k" := Example("a").(status := Revoked)]
            && Fetch(cfg.store, s2.store, "b", "k", 0).1 == Some(FOREIGN) && Fetch(cfg.store, s3.store, "b", "k", 0).1 == Some(FOREIGN)
  {
    StrayStep(cfg, s);
    RevokeStep(cfg, Exec(cfg, s, stray));
    OtherTenantStays(cfg.store, s.store, "b", "a", "k", FOREIGN, Example("a").(status := Revoked));
  }

  /** A revocation that fails half-way: the row is revoked, the look-up still answers a valid license. */
  lemma HalfRevocationStaysValid(cfg: LicenseSystem.Config)
    requires Roomy(cfg)
    ensures var s := Run(cfg, START, [Creating(Example("a")), RevokeLicense("a", "k", true, false, 0)]);
            var found := Fetch(cfg.store, s.store, "a", "k", 0).1;
            && "k" in s.rows && s.rows["k"].status == Revoked
            && found.Some? && Validity.Judge(found.value, "", 0).Valid?
  {
    var create, half := Creating(Example("a")), RevokeLicense("a", "k", true, false, 0);
    RunTwo(cfg, START, create, half);
    CreateStep(cfg);
    ExampleIsGood("a");
  }

  /* ---------- a reload loses the plan's product ---------- */

  const PLAN: Plan := Plan("plan_1", "a", Some("p"), "basic", ["f"], -1, true)

  /** An unlimited license on that plan. */
  const ON_PLAN: License :=
    License("lic_2", "a", PlanKind, Some("plan_1"), None, "k", Active, None, None, -1, 0, [], [], [],
            Trial(false, None, []), [], 0, "")

  const SAVE: Op := CreateLicense(ON_PLAN, "", ["f"], true, true, 0)

  function WithPlan(cfg: LicenseSystem.Config): Sys {
    Exec(cfg, START, PlanOp(Plans.CreatePlan(PLAN, "", true, true, 0)))
  }

  lemma WithPlanOk(cfg: LicenseSystem.Config)
    requires Roomy(cfg)
    ensures SysOk(cfg, WithPlan(cfg)) && Plans.Sound(cfg.plans, WithPlan(cfg).plans)
    ensures WithPlan(cfg).rows == map[] && Plans.FindById(WithPlan(cfg).plans.rows, "a", "plan_1") == Some(PLAN)
  {
    StartOk(cfg);
    var s := START.plans;
    assert Plans.Sound(cfg.plans, s);
    assert ColonFree("a");
    Plans.StepKeepsAgreement(cfg.plans, s, Plans.CreatePlan(PLAN, "", true, true, 0));
  }

  lemma SaveOnPlan(cfg: LicenseSystem.Config)
    requires Roomy(cfg)
    ensures Creates(WithPlan(cfg), SAVE) && SavedCopy(cfg, WithPlan(cfg), SAVE) == Settled(ON_PLAN, Some(PLAN), ["f"])
    ensures Exec(cfg, WithPlan(cfg), SAVE).rows == map["k" := ON_PLAN]
  {
    WithPlanOk(cfg);
    var s := WithPlan(cfg);
    Plans.ResolveOk(cfg.plans, s.plans, "a", "plan_1", false, true, 0);
  }

  /** Activate drops the copy, the next look-up of the service reloads it, and from then on the row is answered. */
  lemma DropThenReload(cfg: LicenseSystem.Config, s: Sys, row: License, copy: License, later: Time)
    requires Roomy(cfg) && SysOk(cfg, s) && s.rows == map["k" := row] && row.tenant == "a"
    requires Fetch(cfg.store, s.store, "a", "k", 0).1 == Some(copy) && MayActivate(copy, 0)
    ensures var s' := Exec(cfg, Exec(cfg, s, Activate("a", "k", true, true, 0)), Activate("a", "k", true, false, 0));
            Fetch(cfg.store, s'.store, "a", "k", later).1 == Some(row)
  {
    var dropped := ActivateDrops(cfg, s, "a", "k", copy);
    ActivateReloads(cfg, dropped, "a", "k", row, later);
  }

  lemma ActivateDrops(cfg: LicenseSystem.Config, s: Sys, t: string, k: string, copy: License) returns (s': Sys)
    requires SysOk(cfg, s) && ColonFree(t) && Fetch(cfg.store, s.store, t, k, 0).1 == Some(copy) && MayActivate(copy, 0)
    ensures s' == Exec(cfg, s, Activate(t, k, true, true, 0))
    ensures SysOk(cfg, s') && s'.rows == s.rows && forall v :: !LicenseStore.Holds(s'.store, CacheKey(t, k), v)
  {
    s' := Exec(cfg, s, Activate(t, k, true, true, 0));
    StepKeepsOk(cfg, s, Activate(t, k, true, true, 0));
    FetchOk(cfg.store, s.store, t, k, 0);
    DropOk(cfg.store, Fetch(cfg.store, s.store, t, k, 0).0, t, k);
    assert s'.store == Drop(Fetch(cfg.store, s.store, t, k, 0).0, t, k);
  }

  lemma ActivateReloads(cfg: LicenseSystem.Config, s: Sys, t: string, k: string, row: License, later: Time)
    requires Roomy(cfg) && SysOk(cfg, s) && s.rows == map[k := row] && row.tenant == t
    requires forall v :: !LicenseStore.Holds(s.store, CacheKey(t, k), v)
    ensures Fetch(cfg.store, Exec(cfg, s, Activate(t, k, true, false, 0)).store, t, k, later).1 == Some(row)
  {
    ResolveReloads(cfg, s, t, k, row, later);
    assert StoreAfter(cfg, s, Activate(t, k, true, false, 0)) == ResolveLicense(cfg, s, t, k, true, 0).0;
  }

  lemma ResolveReloads(cfg: LicenseSystem.Config, s: Sys, t: string, k: string, row: License, later: Time)
    requires Roomy(cfg) && SysOk(cfg, s) && s.rows == map[k := row] && row.tenant == t
    requires forall v :: !LicenseStore.Holds(s.store, CacheKey(t, k), v)
    ensures Fetch(cfg.store, ResolveLicense(cfg, s, t, k, true, 0).0, t, k, later).1 == Some(row)
  {
    FetchOk(cfg.store, s.store, t, k, 0);
    var fetched := Fetch(cfg.store, s.store, t, k, 0).0;
    assert ResolveLicense(cfg, s, t, k, true, 0).0 == Put(cfg.store, fetched, t, k, row, 0);
    PutThenFetch(cfg.store, fetched, t, k, row, 0, later);
  }

  /**
   A license on a plan for product "p" is turned away for product "q". After an activation, which drops the
   copy, and a further look-up, which reloads it, the same license is valid for "q", with no expiry or grace
   involved.
   */
  lemma ReloadForgetsTheProduct(cfg: LicenseSystem.Config)
    requires Roomy(cfg)
    ensures var create := PlanOp(Plans.CreatePlan(PLAN, "", true, true, 0));
            var s2 := Run(cfg, START, [create, SAVE]);
            var s4 := Run(cfg, START, [create, SAVE] + [Activate("a", "k", true, true, 0)] + [Activate("a", "k", true, false, 0)]);
            var before, after := Fetch(cfg.store, s2.store, "a", "k", 0).1, Fetch(cfg.store, s4.store, "a", "k", 0).1;
            && before.Some? && Validity.Judge(before.value, "q", 0) == Validity.Invalid(Validity.InvalidProduct)
            && after.Some? && Validity.Judge(after.value, "q", 0).Valid?
  {
    var create := PlanOp(Plans.CreatePlan(PLAN, "", true, true, 0));
    var first, second := Activate("a", "k", true, true, 0), Activate("a", "k", true, false, 0);
    RunTwo(cfg, START, create, SAVE);
    RunSnoc(cfg, START, [create, SAVE], first);
    RunSnoc(cfg, START, [create, SAVE] + [first], second);
    SavedOnPlan(cfg);
    CopyAndRowDiffer();
    DropThenReload(cfg, Exec(cfg, WithPlan(cfg), SAVE), ON_PLAN, Settled(ON_PLAN, Some(PLAN), ["f"]), 0);
  }

  lemma SavedOnPlan(cfg: LicenseSystem.Config)
    requires Roomy(cfg)
    ensures var s := Exec(cfg, WithPlan(cfg), SAVE);
            && SysOk(cfg, s) && s.rows == map["k" := ON_PLAN]
            && Fetch(cfg.store, s.store, "a", "k", 0).1 == Some(Settled(ON_PLAN, Some(PLAN), ["f"]))
  {
    WithPlanOk(cfg);
    SaveOnPlan(cfg);
    StepKeepsOk(cfg, WithPlan(cfg), SAVE);
    SavedIsAnswered(cfg, WithPlan(cfg), SAVE, 0);
  }

  lemma CopyAndRowDiffer()
    ensures var copy := Settled(ON_PLAN, Some(PLAN), ["f"]);
            && MayActivate(copy, 0) && Validity.Judge(copy, "q", 0) == Validity.Invalid(Validity.InvalidProduct)
            && Validity.Judge(ON_PLAN, "q", 0).Valid?
  {
  }

  /* ---------- a reload loses the grace ---------- */

  /** Expires at time 0, with a day of grace. */
  const LENIENT: License := Example("a").(expiresAt := Some(0), graceDays := 1)

  lemma LenientAndRowDiffer()
    ensures var copy := LENIENT.(finalFeatures := ["f"]);
            && Acceptable(LENIENT) && MayActivate(copy, 0) && Validity.Judge(copy, "", 1).Valid?
            && Validity.Judge(Stored(LENIENT), "", 1) == Validity.Invalid(Validity.LicenseExpired)
  {
  }

  lemma SavedLenient(cfg: LicenseSystem.Config, later: Time)
    requires Roomy(cfg)
    ensures var s := Exec(cfg, START, Creating(LENIENT));
            && SysOk(cfg, s) && s.rows == map["k" := Stored(LENIENT)]
            && Fetch(cfg.store, s.store, "a", "k", later).1 == Some(LENIENT.(finalFeatures := ["f"]))
  {
    StartOk(cfg);
    LenientAndRowDiffer();
    StepKeepsOk(cfg, START, Creating(LENIENT));
    assert SavedCopy(cfg, START, Creating(LENIENT)) == LENIENT.(finalFeatures := ["f"]);
    PutThenFetch(cfg.store, START.store, "a", "k", LENIENT.(finalFeatures := ["f"]), 0, later);
  }

  /** The same with the grace: valid just after expiry from the copy, expired once it has been reloaded. */
  lemma ReloadForgetsTheGrace(cfg: LicenseSystem.Config)
    requires Roomy(cfg)
    ensures var create := Creating(LENIENT);
            var s1 := Run(cfg, START, [create]);
            var s3 := Run(cfg, START, [create, Activate("a", "k", true, true, 0), Activate("a", "k", true, false, 0)]);
            var before, after := Fetch(cfg.store, s1.store, "a", "k", 1).1, Fetch(cfg.store, s3.store, "a", "k", 1).1;
            && before.Some? && Validity.Judge(before.value, "", 1).Valid?
            && after.Some? && Validity.Judge(after.value, "", 1) == Validity.Invalid(Validity.LicenseExpired)
  {
    RunOne(cfg, START, Creating(LENIENT));
    RunThree(cfg, START, Creating(LENIENT), Activate("a", "k", true, true, 0), Activate("a", "k", true, false, 0));
    SavedLenient(cfg, 0);
    SavedLenient(cfg, 1);
    LenientAndRowDiffer();
    DropThenReload(cfg, Exec(cfg, START, Creating(LENIENT)), Stored(LENIENT), LENIENT.(finalFeatures := ["f"]), 1);
  }

  /* ---------- the second level is shared ---------- */

  /** Nothing stored, nothing cached, with a second level. */
  const SHARED: Sys := START.(store := Store([], Some(map[])))

  /**
   A new tenant asks about its own key hash as if it were a license key. What the tenant cache stored in the
   second level reads back as a license: the answer is valid although no license exists.
   */
  lemma TenantKeyIsALicense(cfg: LicenseSystem.Config, minKeyLength: int, t: string, hash: string, product: string, at: Time, now: Time)
    requires cfg.store.cap > 0 && cfg.tenants.cap >= 2 && Tenants.PlainId(t) && hash != "" && minKeyLength <= |hash|
    requires at <= now <= at + cfg.tenants.ttl
    ensures var s := Run(cfg, SHARED, [Validation.Creating(t, hash, at)]);
            s.rows == map[] && Validation.AnswersValid(cfg, s, minKeyLength, Validation.Request(t, hash, hash, product), now)
  {
    RunOne(cfg, SHARED, Validation.Creating(t, hash, at));
    CreatedIsBlank(cfg, t, hash, at, now);
    Validation.CreatedAsks(cfg, SHARED, minKeyLength, Validation.Request(t, hash, hash, product), BLANK, at, now);
  }

  lemma CreatedIsBlank(cfg: LicenseSystem.Config, t: string, hash: string, at: Time, now: Time)
    requires now <= at + cfg.tenants.ttl
    ensures Fetch(cfg.store, Exec(cfg, SHARED, Validation.Creating(t, hash, at)).store, t, hash, now).1 == Some(BLANK)
  {
    Validation.CreatingStores(cfg, SHARED, t, hash, at);
    StoredIsBlank(cfg, SHARED.store, t, hash, Tenants.KeyPlaces(t, hash), cfg.tenants.ttl, at, now);
  }

  /** What another cache has stored is answered as the blank license while the first level has nothing. */
  lemma StoredIsBlank(cfg: LicenseSystem.Config, st: Store, t: string, k: string, places: seq<Place>, ttl: Time, at: Time, now: Time)
    requires st.l2.Some? && Place(t, k) in places && now <= at + ttl && Lookup(st.l1, CacheKey(t, k)).None?
    ensures Fetch(cfg.store, Disturbed(st, Stores(places, ttl, at)), t, k, now).1 == Some(BLANK)
  {
    assert KeyAt(Place(t, k)) == CacheKey(t, k);
  }

  function WithKey(k: string): License {
    Example("a").(key := k)
  }

  /**
   A license whose key is the name of a plan or a product is created and revoked. Then that plan or product is
   created and the license drops out of the first level: the revoked license validates again, for any product.
   */
  lemma RevokedValidatesAgain(cfg: LicenseSystem.Config, k: string, product: string, now: Time)
    requires cfg.store.cap >= 2 && Reserved(k) && 0 <= now <= IntruderTtl(cfg, k)
    ensures var ops := [Creating(WithKey(k)), RevokeLicense("a", k, true, true, 0)];
            var s := Run(cfg, SHARED, ops + [Intruder("a", k, 0)] + [Background(Runs.LoseLocal(CacheKey("a", k), 0))]);
            && s.rows == map[k := WithKey(k).(status := Revoked)]
            && Fetch(cfg.store, s.store, "a", k, now).1 == Some(BLANK) && Validity.Judge(BLANK, product, now).Valid?
  {
    var revoked := CreateAndRevoke(cfg, k);
    RunIntrudedThenLost(cfg, SHARED, [Creating(WithKey(k)), RevokeLicense("a", k, true, true, 0)], "a", k, now);
  }

  lemma RunIntrudedThenLost(cfg: LicenseSystem.Config, s: Sys, ops: seq<Op>, t: string, k: string, now: Time)
    requires Run(cfg, s, ops).store.l2.Some? && ColonFree(t) && t != "" && Reserved(k) && now <= IntruderTtl(cfg, k)
    ensures var s' := Run(cfg, s, ops + [Intruder(t, k, 0)] + [Background(Runs.LoseLocal(CacheKey(t, k), 0))]);
            s'.rows == Run(cfg, s, ops).rows && Fetch(cfg.store, s'.store, t, k, now).1 == Some(BLANK)
  {
    IntrudedThenLost(cfg, Run(cfg, s, ops), t, k, now);
    RunSnoc(cfg, s, ops, Intruder(t, k, 0));
    RunSnoc(cfg, s, ops + [Intruder(t, k, 0)], Background(Runs.LoseLocal(CacheKey(t, k), 0)));
  }

  lemma CreateAndRevoke(cfg: LicenseSystem.Config, k: string) returns (s: Sys)
    requires k != ""
    ensures s == Run(cfg, SHARED, [Creating(WithKey(k)), RevokeLicense("a", k, true, true, 0)])
    ensures s.rows == map[k := WithKey(k).(status := Revoked)] && s.store.l2.Some?
  {
    var create, revoke := Creating(WithKey(k)), RevokeLicense("a", k, true, true, 0);
    RunTwo(cfg, SHARED, create, revoke);
    LevelStays(cfg, SHARED, create);
    LevelStays(cfg, Exec(cfg, SHARED, create), revoke);
    assert RowsAfter(SHARED, create) == map[k := WithKey(k)];
    s := Exec(cfg, Exec(cfg, SHARED, create), revoke);
  }

  lemma IntrudedThenLost(cfg: LicenseSystem.Config, s: Sys, t: string, k: string, now: Time)
    requires s.store.l2.Some? && ColonFree(t) && t != "" && Reserved(k) && now <= IntruderTtl(cfg, k)
    ensures var s' := Exec(cfg, Exec(cfg, s, Intruder(t, k, 0)), Background(Runs.LoseLocal(CacheKey(t, k), 0)));
            s'.rows == s.rows && Fetch(cfg.store, s'.store, t, k, now).1 == Some(BLANK)
  {
    IntruderIntrudes(cfg, s, t, k, 0);
    var mid := Exec(cfg, s, Intruder(t, k, 0));
    LossShows(cfg, mid, s.store, t, k, IntruderTtl(cfg, k), now);
  }

  lemma LossShows(cfg: LicenseSystem.Config, s: Sys, before: Store, t: string, k: string, ttl: Time, now: Time)
    requires before.l2.Some? && s.store == Disturbed(before, Stores([Place(t, k)], ttl, 0)) && now <= ttl
    ensures var s' := Exec(cfg, s, Background(Runs.LoseLocal(CacheKey(t, k), 0)));
            s'.rows == s.rows && Fetch(cfg.store, s'.store, t, k, now).1 == Some(BLANK)
  {
    var lost := before.(l1 := Remove(before.l1, CacheKey(t, k)));
    LossStep(cfg, s, CacheKey(t, k));
    assert Lookup(lost.l1, CacheKey(t, k)).None?;
    StoredIsBlank(cfg, lost, t, k, [Place(t, k)], ttl, 0, now);
  }
}
