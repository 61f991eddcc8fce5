/** The whole validation decision: tenant cache, license cache, verdict. A valid answer is backed by both tables. */
module Validation {
  import opened Common
  import opened Domain
  import opened Lru
  import opened LicenseStore
  import opened LicenseSystem
  import opened Validity
  import opened LicenseCoherence
  import opened LicenseRevocation
  import opened Features
  import Tenants = TenantSystem
  import Auth = TenantAuth

  datatype Refusal = InvalidRequest | InvalidKey | InvalidTenant | TenantSuspended | LicenseNotFound

  datatype Answer = Refused(why: Refusal) | Judged(verdict: Verdict)

  datatype Request = Request(tenant: string, apiKey: string, key: string, product: string)

  /** The caches are only read here; what reading does to them is an operation of the system. */
  function Validate(cfg: LicenseSystem.Config, s: Sys, minKeyLength: int, req: Request, now: Time): Answer {
    if req.tenant == "" || req.apiKey == "" || req.key == "" then Refused(InvalidRequest)
    else if |req.key| < minKeyLength then Refused(InvalidKey)
    else
      var hit := RemoteHit(s.store, Place(req.tenant, req.apiKey), now);
      var tenant := Tenants.Authenticate(cfg.tenants, s.tenants.l1, req.tenant, req.apiKey, hit, now).1;
      if tenant.None? then Refused(InvalidTenant)
      else if tenant.value.IsSuspended() then Refused(TenantSuspended)
      else
        var lic := Fetch(cfg.store, s.store, tenant.value.id, req.key, now).1;
        if lic.None? then Refused(LicenseNotFound) else Judged(Judge(lic.value, req.product, now))
  }

  predicate AnswersValid(cfg: LicenseSystem.Config, s: Sys, minKeyLength: int, req: Request, now: Time) {
    var answer := Validate(cfg, s, minKeyLength, req, now);
    answer.Judged? && answer.verdict.Valid?
  }

  /** What the two tables must say for a valid answer; only the grace days come from the cached copy. */
  predicate Backed(trow: Tenants.Tenant, row: License, req: Request, graceDays: int, now: Time) {
    && trow.id == req.tenant && trow.status == Tenants.Good && HasKey(trow, req.apiKey, now)
    && row.tenant == req.tenant && row.key == req.key && InOrder(row, req.product, graceDays, now)
  }

  /** The current key of the tenant, or the previous one before its grace ends. */
  predicate HasKey(trow: Tenants.Tenant, apiKey: string, now: Time) {
    apiKey == trow.apiKey || (apiKey == trow.oldKey && trow.oldUntil.Some? && now < trow.oldUntil.value)
  }

  /** Not revoked, inside its dates, and if it is for one product, for the one asked about. */
  predicate InOrder(row: License, product: string, graceDays: int, now: Time) {
    && row.status != Revoked && Between(OpensAt(row), now, ClosesAt(row.(graceDays := graceDays)))
    && (row.kind != PlanKind && product != "" ==> row.productId in {None, Some(""), Some(product)})
  }

  lemma JudgedByRow(rows: Table, k: string, lic: License, product: string, now: Time)
    requires IsCopy(rows, k, lic) && RowOk(rows, k) && Judge(lic, product, now).Valid?
    ensures InOrder(rows[k], product, lic.graceDays, now)
  {
    var a, b := Core(lic), Core(rows[k]);
    assert a.status == b.status && a.notBefore == b.notBefore && a.expiresAt == b.expiresAt && a.kind == b.kind;
    assert a.productId == b.productId;
    ValidityIsAnInterval(lic, product, now);
  }

  /** What is found for the request has rows in both tables that bear it out. */
  predicate BackedBy(cfg: LicenseSystem.Config, s: Sys, req: Request, now: Time) {
    var lic := Fetch(cfg.store, s.store, req.tenant, req.key, now).1;
    && req.tenant in s.tenants.rows && req.key in s.rows && lic.Some?
    && Backed(s.tenants.rows[req.tenant], s.rows[req.key], req, lic.value.graceDays, now)
  }

  lemma BackedNow(cfg: LicenseSystem.Config, s: Sys, minKeyLength: int, req: Request, now: Time)
    requires Auth.Sound(cfg.tenants, s.tenants) && Tenants.PlainId(req.tenant) && SysOk(cfg, s) && CoherentAt(s, req.key)
    ensures AnswersValid(cfg, s, minKeyLength, req, now) ==> BackedBy(cfg, s, req, now)
  {
    var hit := RemoteHit(s.store, Place(req.tenant, req.apiKey), now);
    var t := Tenants.Authenticate(cfg.tenants, s.tenants.l1, req.tenant, req.apiKey, hit, now).1;
    var lic := Fetch(cfg.store, s.store, req.tenant, req.key, now).1;
    Auth.AuthenticatedIsRow(cfg.tenants, s.tenants, req.tenant, req.apiKey, hit, now);
    AnswersHaveRows(cfg, s, req.tenant, req.key, now);
    if t.Some? && lic.Some? && Judge(lic.value, req.product, now).Valid? {
      JudgedByRow(s.rows, req.key, lic.value, req.product, now);
    }
  }

  /** A refusal says which part of the request, of the tenant's standing or of the cache is at fault. */
  lemma RefusalIff(cfg: LicenseSystem.Config, s: Sys, minKeyLength: int, req: Request, now: Time)
    requires Auth.Sound(cfg.tenants, s.tenants) && Tenants.PlainId(req.tenant)
    ensures var answer := Validate(cfg, s, minKeyLength, req, now);
            var asked := req.tenant != "" && req.apiKey != "" && req.key != "";
            && (answer == Refused(InvalidRequest) <==> !asked)
            && (answer == Refused(InvalidKey) <==> asked && |req.key| < minKeyLength)
            && (answer == Refused(TenantSuspended) ==>
                  req.tenant in s.tenants.rows && s.tenants.rows[req.tenant].status != Tenants.Good)
            && (answer.Judged? || answer == Refused(LicenseNotFound) ==>
                  && req.tenant in s.tenants.rows && s.tenants.rows[req.tenant].status == Tenants.Good
                  && HasKey(s.tenants.rows[req.tenant], req.apiKey, now))
  {
    Auth.AuthenticatedIsRow(cfg.tenants, s.tenants, req.tenant, req.apiKey, RemoteHit(s.store, Place(req.tenant, req.apiKey), now), now);
  }

  /* ---------- a tenant out of standing ---------- */

  ghost predicate Out(cfg: LicenseSystem.Config, ts: Tenants.State, t: string) {
    cfg.tenants.cap > 0 && Ok(ts.l1, cfg.tenants.cap) && Auth.OutOfStanding(ts, t)
  }

  predicate Readmits(op: LicenseSystem.Op, t: string) {
    op.TenantOp? && Auth.Reinstates(op.tenantOp, t)
  }

  lemma StepKeepsOut(cfg: LicenseSystem.Config, s: Sys, op: LicenseSystem.Op, t: string)
    requires Out(cfg, s.tenants, t) && Tenants.PlainId(t) && Possible(s, op) && !Readmits(op, t)
    ensures Out(cfg, TenantsAfter(cfg, s, op), t)
  {
    if op.TenantOp? {
      Auth.StepKeepsOut(cfg.tenants, s.tenants, op.tenantOp, t);
    }
  }

  lemma OneMoreOut(cfg: LicenseSystem.Config, s: Sys, op: LicenseSystem.Op, t: string)
    requires Out(cfg, s.tenants, t) && Tenants.PlainId(t) && Possible(s, op) && !Readmits(op, t)
    ensures Out(cfg, Exec(cfg, s, op).tenants, t)
  {
    StepKeepsOut(cfg, s, op, t);
  }

  lemma {:induction false} RunKeepsOut(cfg: LicenseSystem.Config, s: Sys, ops: seq<LicenseSystem.Op>, t: string)
    requires Out(cfg, s.tenants, t) && Tenants.PlainId(t)
    requires PossibleRun(cfg, s, ops) && forall i | 0 <= i < |ops| :: !Readmits(ops[i], t)
    ensures Out(cfg, Run(cfg, s, ops).tenants, t)
    decreases |ops|
  {
    if ops != [] {
      var before, op := ops[..|ops| - 1], ops[|ops| - 1];
      LastOperation(cfg, s, ops);
      RunKeepsOut(cfg, s, before, t);
      OneMoreOut(cfg, Run(cfg, s, before), op, t);
    }
  }

  lemma StepTakesOut(cfg: LicenseSystem.Config, s: Sys, op: Tenants.Op)
    requires cfg.tenants.cap > 0 && Ok(s.tenants.l1, cfg.tenants.cap) && Possible(s, TenantOp(op)) && Auth.TakesOut(s.tenants, op)
    ensures Tenants.PlainId(op.id) && Out(cfg, TenantsAfter(cfg, s, TenantOp(op)), op.id)
  {
    Auth.TakenOut(cfg.tenants, s.tenants, op);
  }

  /** Whoever is out of standing gets no verdict. */
  lemma OutIsRefused(cfg: LicenseSystem.Config, s: Sys, minKeyLength: int, req: Request, now: Time)
    requires Out(cfg, s.tenants, req.tenant)
    ensures Validate(cfg, s, minKeyLength, req, now).Refused?
  {
    Auth.AuthenticateOk(cfg.tenants, s.tenants.l1, req.tenant, req.apiKey, RemoteHit(s.store, Place(req.tenant, req.apiKey), now), now);
  }

  /**
   Once a tenant has been deleted, or suspended with the cache reached, no validation for it gives a verdict,
   whatever else happens, until a reinstatement names it.
   */
  lemma NoVerdictUntilReinstated(cfg: LicenseSystem.Config, s: Sys, op: Tenants.Op, ops: seq<LicenseSystem.Op>, minKeyLength: int,
                                 req: Request, now: Time)
    requires cfg.tenants.cap > 0 && Ok(s.tenants.l1, cfg.tenants.cap) && Possible(s, TenantOp(op)) && Auth.TakesOut(s.tenants, op)
    requires req.tenant == op.id && PossibleRun(cfg, Exec(cfg, s, TenantOp(op)), ops)
    requires forall i | 0 <= i < |ops| :: !Readmits(ops[i], op.id)
    ensures Validate(cfg, Run(cfg, Exec(cfg, s, TenantOp(op)), ops), minKeyLength, req, now).Refused?
  {
    StepTakesOut(cfg, s, op);
    RunKeepsOut(cfg, Exec(cfg, s, TenantOp(op)), ops, op.id);
    OutIsRefused(cfg, Run(cfg, Exec(cfg, s, TenantOp(op)), ops), minKeyLength, req, now);
  }

  /** No suspension lapses. */
  predicate FirmRun(cfg: LicenseSystem.Config, s: Sys, ops: seq<LicenseSystem.Op>) {
    forall i | 0 <= i < |ops| && ops[i].TenantOp? :: !Auth.Lapses(Run(cfg, s, ops[..i]).tenants, ops[i].tenantOp)
  }

  lemma {:induction false} TenantsStaySound(cfg: LicenseSystem.Config, s: Sys, ops: seq<LicenseSystem.Op>)
    requires Auth.Sound(cfg.tenants, s.tenants) && PossibleRun(cfg, s, ops) && FirmRun(cfg, s, ops)
    ensures Auth.Sound(cfg.tenants, Run(cfg, s, ops).tenants)
    decreases |ops|
  {
    if ops != [] {
      var before, op := ops[..|ops| - 1], ops[|ops| - 1];
      PossiblePrefix(cfg, s, ops, |ops| - 1);
      forall i | 0 <= i < |before| ensures before[..i] == ops[..i] {
      }
      TenantsStaySound(cfg, s, before);
      TenantsStepSound(cfg, Run(cfg, s, before), op);
    }
  }

  lemma TenantsStepSound(cfg: LicenseSystem.Config, s: Sys, op: LicenseSystem.Op)
    requires Auth.Sound(cfg.tenants, s.tenants) && Possible(s, op) && (op.TenantOp? ==> !Auth.Lapses(s.tenants, op.tenantOp))
    ensures Auth.Sound(cfg.tenants, TenantsAfter(cfg, s, op))
  {
    if op.TenantOp? {
      Auth.StepSound(cfg.tenants, s.tenants, op.tenantOp);
    }
  }

  /** No tenants and empty caches; any license rows, and a second level or none. */
  ghost predicate Fresh(cfg: LicenseSystem.Config, s: Sys) {
    SysOk(cfg, s) && EmptyCache(s) && cfg.tenants.cap > 0 && s.tenants == Tenants.State(map[], [])
  }

  /**
   After any run of the server from empty caches in which no suspension lapses, that is orderly on the key, and
   for a key no other cache can name, a valid answer means that the tenant row accepts the API key and is in
   good standing, and that the license has a row, which is that tenant's own, not revoked, inside its dates and
   for the product asked about.
   */
  lemma ValidIsBacked(cfg: LicenseSystem.Config, s: Sys, ops: seq<LicenseSystem.Op>, minKeyLength: int, req: Request, now: Time)
    requires Fresh(cfg, s) && Tenants.PlainId(req.tenant) && PossibleRun(cfg, s, ops) && FirmRun(cfg, s, ops)
    requires OrderlyRun(cfg, s, ops, req.key) && Secluded(s, ops, req.key)
    ensures var s' := Run(cfg, s, ops); AnswersValid(cfg, s', minKeyLength, req, now) ==> BackedBy(cfg, s', req, now)
  {
    TenantsStaySound(cfg, s, ops);
    RunIsCoherent(cfg, s, ops, req.key);
    BackedNow(cfg, Run(cfg, s, ops), minKeyLength, req, now);
  }

  /* ---------- which keys this holds for ---------- */

  /** The runs in question: also, no tenant gets the license key as its key hash. */
  predicate GoodRun(cfg: LicenseSystem.Config, s: Sys, ops: seq<LicenseSystem.Op>, k: string) {
    && PossibleRun(cfg, s, ops) && FirmRun(cfg, s, ops) && OrderlyRun(cfg, s, ops, k)
    && forall i | 0 <= i < |ops| :: !SetsKey(ops[i], k)
  }

  ghost predicate AlwaysBacked(cfg: LicenseSystem.Config, s: Sys, minKeyLength: int, t: string, k: string) {
    forall ops, apiKey, product, now :: GoodRun(cfg, s, ops, k) ==>
      var s', req := Run(cfg, s, ops), Request(t, apiKey, k, product);
      AnswersValid(cfg, s', minKeyLength, req, now) ==> BackedBy(cfg, s', req, now)
  }

  const NEW_PROFILE: Tenants.Profile := Tenants.Profile("new", false)

  function Creating(t: string, hash: string, now: Time): LicenseSystem.Op {
    TenantOp(Tenants.Create(t, hash, 1, 1, NEW_PROFILE, true, now))
  }

  /**
   From a system without licenses, every valid answer on a key is backed in every such run if and only if
   there is no second level or the key is not the name of a plan or a product.
   */
  lemma AlwaysBackedIff(cfg: LicenseSystem.Config, s: Sys, minKeyLength: int, t: string, k: string)
    requires Fresh(cfg, s) && s.rows == map[] && cfg.tenants.cap >= 2 && Tenants.PlainId(t) && k != "" && minKeyLength <= |k|
    ensures AlwaysBacked(cfg, s, minKeyLength, t, k) <==> s.store.l2.None? || !Reserved(k)
  {
    if s.store.l2.None? || !Reserved(k) {
      forall ops, apiKey, product, now | GoodRun(cfg, s, ops, k)
        ensures var s', req := Run(cfg, s, ops), Request(t, apiKey, k, product);
                AnswersValid(cfg, s', minKeyLength, req, now) ==> BackedBy(cfg, s', req, now)
      {
        ValidIsBacked(cfg, s, ops, minKeyLength, Request(t, apiKey, k, product), now);
      }
    } else {
      var ops := NamedIsValid(cfg, s, minKeyLength, t, k, "h" + k, "", 0, 0 - IntruderTtl(cfg, k));
    }
  }

  lemma RunTwo(cfg: LicenseSystem.Config, s: Sys, a: LicenseSystem.Op, b: LicenseSystem.Op)
    ensures Run(cfg, s, [a, b]) == Exec(cfg, Exec(cfg, s, a), b)
    ensures Possible(s, a) && Possible(Exec(cfg, s, a), b) ==> PossibleRun(cfg, s, [a, b])
  {
    assert [a][..0] == [] && [a, b][..0] == [] && [a, b][..1] == [a];
    assert Run(cfg, s, [a]) == Exec(cfg, s, a);
  }

  /** A plan or product stored elsewhere and a tenant are all it takes: no license row exists and the answer is valid. */
  lemma NamedIsValid(cfg: LicenseSystem.Config, s: Sys, minKeyLength: int, t: string, k: string, hash: string, product: string,
                     now: Time, at: Time) returns (ops: seq<LicenseSystem.Op>)
    requires Fresh(cfg, s) && s.rows == map[] && cfg.tenants.cap >= 2 && Tenants.PlainId(t) && minKeyLength <= |k|
    requires s.store.l2.Some? && Reserved(k) && hash != "" && hash != k && now <= at + IntruderTtl(cfg, k)
    ensures ops == [Intruder(t, k, at), Creating(t, hash, now)] && GoodRun(cfg, s, ops, k)
    ensures var s' := Run(cfg, s, ops);
            s'.rows == map[] && AnswersValid(cfg, s', minKeyLength, Request(t, hash, k, product), now)
  {
    ops := [Intruder(t, k, at), Creating(t, hash, now)];
    var mid := GoodIntrusion(cfg, s, t, k, at, hash, now);
    NamedThenCreated(cfg, mid, minKeyLength, t, k, hash, product, now);
  }

  lemma GoodIntrusion(cfg: LicenseSystem.Config, s: Sys, t: string, k: string, at: Time, hash: string, now: Time) returns (mid: Sys)
    requires Fresh(cfg, s) && s.rows == map[] && Tenants.PlainId(t) && s.store.l2.Some? && Reserved(k) && hash != k
    requires now <= at + IntruderTtl(cfg, k)
    ensures var a, b := Intruder(t, k, at), Creating(t, hash, now);
            && GoodRun(cfg, s, [a, b], k) && Run(cfg, s, [a, b]) == Exec(cfg, mid, b)
            && Planted(cfg, mid, t, k, now)
  {
    mid := Exec(cfg, s, Intruder(t, k, at));
    AfterIntruder(cfg, s, t, k, at);
    TwoStepsAreGood(cfg, s, Intruder(t, k, at), Creating(t, hash, now), k);
  }

  predicate BlankAt(st: Store, ck: string, now: Time) {
    st.l2.Some? && ck in st.l2.value && st.l2.value[ck].payload == Some(BLANK) && !IsExpired(st.l2.value[ck], now)
  }

  /** No tenant, no license and nothing cached but another cache's entry under the key. */
  ghost predicate Planted(cfg: LicenseSystem.Config, s: Sys, t: string, k: string, now: Time) {
    && SysOk(cfg, s) && s.rows == map[] && s.tenants == Tenants.State(map[], []) && s.store.l1 == [] && k != ""
    && BlankAt(s.store, KeyAt(Place(t, k)), now)
  }

  lemma NamedThenCreated(cfg: LicenseSystem.Config, s: Sys, minKeyLength: int, t: string, k: string, hash: string, product: string,
                         now: Time)
    requires Planted(cfg, s, t, k, now) && cfg.tenants.cap >= 2 && Tenants.PlainId(t)
    requires minKeyLength <= |k| && hash != k && hash != ""
    ensures var s' := Exec(cfg, s, Creating(t, hash, now));
            s'.rows == map[] && AnswersValid(cfg, s', minKeyLength, Request(t, hash, k, product), now)
  {
    NamedIsFound(cfg, s, t, k, hash, now);
    CreatedAsks(cfg, s, minKeyLength, Request(t, hash, k, product), BLANK, now, now);
  }

  lemma AfterIntruder(cfg: LicenseSystem.Config, s: Sys, t: string, k: string, at: Time)
    requires Fresh(cfg, s) && s.rows == map[] && Tenants.PlainId(t) && s.store.l2.Some? && Reserved(k)
    ensures var a := Intruder(t, k, at); Possible(s, a) && !SetsKey(a, k) && (a.PlanOp? || a.PutProduct?)
    ensures forall now | now <= at + IntruderTtl(cfg, k) :: Planted(cfg, Exec(cfg, s, Intruder(t, k, at)), t, k, now)
  {
    IntruderIntrudes(cfg, s, t, k, at);
    StepKeepsOk(cfg, s, Intruder(t, k, at));
    assert Place(t, k) in [Place(t, k)];
  }

  /** Two operations without a license save, a revocation or a suspension are a good run. */
  lemma TwoStepsAreGood(cfg: LicenseSystem.Config, s: Sys, a: LicenseSystem.Op, b: LicenseSystem.Op, k: string)
    requires Possible(s, a) && !SetsKey(a, k) && (a.PlanOp? || a.PutProduct?)
    requires b.TenantOp? && b.tenantOp.Create? && Tenants.PlainId(b.tenantOp.id) && !SetsKey(b, k)
    ensures GoodRun(cfg, s, [a, b], k) && Run(cfg, s, [a, b]) == Exec(cfg, Exec(cfg, s, a), b)
  {
    RunTwo(cfg, s, a, b);
    assert [a, b][0] == a && [a, b][1] == b;
  }

  /** A tenant just created asks about a license that the cache answers. */
  lemma CreatedAsks(cfg: LicenseSystem.Config, s: Sys, minKeyLength: int, req: Request, found: License, at: Time, now: Time)
    requires cfg.tenants.ttl <= 0 || now <= at + cfg.tenants.ttl
    requires cfg.tenants.cap >= 2 && s.tenants == Tenants.State(map[], []) && Tenants.PlainId(req.tenant)
    requires req.apiKey != "" && req.key != "" && minKeyLength <= |req.key| && Judge(found, req.product, now).Valid?
    requires Fetch(cfg.store, Exec(cfg, s, Creating(req.tenant, req.apiKey, at)).store, req.tenant, req.key, now).1 == Some(found)
    ensures AnswersValid(cfg, Exec(cfg, s, Creating(req.tenant, req.apiKey, at)), minKeyLength, req, now)
  {
    var op := Creating(req.tenant, req.apiKey, at);
    var s' := Exec(cfg, s, op);
    Auth.CreatedAuthenticates(cfg.tenants, s.tenants, op.tenantOp, RemoteHit(s'.store, Place(req.tenant, req.apiKey), now), now);
  }

  lemma NamedIsFound(cfg: LicenseSystem.Config, s: Sys, t: string, k: string, hash: string, now: Time)
    requires Planted(cfg, s, t, k, now) && Tenants.PlainId(t) && hash != k
    ensures Fetch(cfg.store, Exec(cfg, s, Creating(t, hash, now)).store, t, k, now).1 == Some(BLANK)
  {
    CreatingStores(cfg, s, t, hash, now);
    StillFound(cfg, s.store, t, k, hash, now);
  }

  lemma CreatingStores(cfg: LicenseSystem.Config, s: Sys, t: string, hash: string, now: Time)
    requires s.tenants == Tenants.State(map[], [])
    ensures StoreAfter(cfg, s, Creating(t, hash, now)) == Disturbed(s.store, Stores(Tenants.KeyPlaces(t, hash), cfg.tenants.ttl, now))
  {
  }

  lemma StillFound(cfg: LicenseSystem.Config, st: Store, t: string, k: string, hash: string, now: Time)
    requires ColonFree(t) && hash != k && st.l1 == [] && BlankAt(st, KeyAt(Place(t, k)), now)
    ensures Fetch(cfg.store, Disturbed(st, Stores(Tenants.KeyPlaces(t, hash), cfg.tenants.ttl, now)), t, k, now).1 == Some(BLANK)
  {
    var places := Tenants.KeyPlaces(t, hash);
    forall p | p in places ensures KeyAt(p) != KeyAt(Place(t, k)) {
      CacheKeyInjective(t, k, p.tenant, p.key);
    }
    StoreSpares(st, places, cfg.tenants.ttl, now, KeyAt(Place(t, k)));
  }

  lemma StoreSpares(st: Store, places: seq<Place>, ttl: Time, now: Time, ck: string)
    requires st.l2.Some? && ck in st.l2.value && forall p | p in places :: KeyAt(p) != ck
    ensures var l2 := Disturb(st.l2, Stores(places, ttl, now)); l2.Some? && ck in l2.value && l2.value[ck] == st.l2.value[ck]
  {
  }

  /* ---------- what a reload loses ---------- */

  /** The product name a cached copy carries beside its product id: the plan's, or the one submitted. */
  function CachedProduct(l: License, plan: Option<Plan>): string {
    if plan.Some? && plan.value.productId.Some? then plan.value.productId.value else l.product
  }

  /** Only the cached copy turns this product away. */
  predicate ProductIsLost(l: License, plan: Option<Plan>, product: string) {
    product != "" && CachedProduct(l, plan) != "" && CachedProduct(l, plan) != product
  }

  predicate Late(l: License, now: Time) {
    l.expiresAt.Some? && l.expiresAt.value < now
  }

  /** Neither revoked nor turned away for a product the row itself names. */
  predicate StandsByRow(l: License, product: string) {
    l.status != Revoked && (product == "" || l.productId in {None, Some(""), Some(product)})
  }

  /** Nothing but expiry and what a reload loses stands against a valid verdict. */
  predicate OtherwiseGood(l: License, product: string, now: Time) {
    StandsByRow(l, product) && Between(OpensAt(l), now, None)
  }

  /** Past expiry and not past the days of grace. */
  predicate WithinGrace(l: License, now: Time) {
    Late(l, now) && now <= l.expiresAt.value + Max(0, l.graceDays) * DAY
  }

  lemma ValidWhen(lic: License, product: string, now: Time)
    ensures Judge(lic, product, now).Valid?
       <==> lic.status != Revoked && !WrongProduct(lic, product) && Between(OpensAt(lic), now, None) && !lic.IsExpired(now)
  {
    NeverExpiredInGrace(lic, now);
  }

  /** When copy and row count as expired. */
  lemma Expiries(l: License, v: License, r: License, now: Time)
    requires v.expiresAt == r.expiresAt == l.expiresAt && v.graceDays == l.graceDays && r.graceDays == 0
    ensures r.IsExpired(now) <==> Late(l, now)
    ensures v.IsExpired(now) <==> Late(l, now) && !WithinGrace(l, now)
  {
    GraceTimesDay(l.graceDays);
    GraceTimesDay(0);
  }

  /**
   The grace days and the product of a plan live on the cached copy only. The verdict on the copy a save puts
   into the cache is the verdict on the license reloaded from its row, for every product and instant, unless
   the row stands and either the lost product speaks against it or the license is open and within its grace.
   */
  lemma RefillKeepsVerdictIff(l: License, plan: Option<Plan>, final: seq<string>, product: string, now: Time)
    requires ValidateHardRules(l).None? && (plan.Some? ==> l.kind == PlanKind)
    ensures Judge(Settled(l, plan, final), product, now) == Judge(Stored(l), product, now) <==>
              !(StandsByRow(l, product) && (ProductIsLost(l, plan, product) || (Between(OpensAt(l), now, None) && WithinGrace(l, now))))
  {
    CopyAndRow(l, plan, final, product);
    Expiries(l, Settled(l, plan, final), Stored(l), now);
  }

  /** What copy and row share, and in what they differ. */
  lemma CopyAndRow(l: License, plan: Option<Plan>, final: seq<string>, product: string)
    requires ValidateHardRules(l).None? && (plan.Some? ==> l.kind == PlanKind)
    ensures var v, r := Settled(l, plan, final), Stored(l);
            && (WrongProduct(v, product) <==> WrongProduct(r, product) || ProductIsLost(l, plan, product))
            && (WrongProduct(r, product) <==> product != "" && l.productId !in {None, Some(""), Some(product)})
            && v.status == r.status == l.status && v.notBefore == r.notBefore == l.notBefore
            && OpensAt(v) == OpensAt(r) == OpensAt(l)
            && v.expiresAt == r.expiresAt == l.expiresAt && v.graceDays == l.graceDays && r.graceDays == 0
  {
  }

  /**
   Validity alone agrees in more cases: it is lost or gained by a reload exactly when the license is otherwise
   good and either the lost product alone speaks against it before expiry, or no product does and it is within
   its grace.
   */
  lemma RefillKeepsValidityIff(l: License, plan: Option<Plan>, final: seq<string>, product: string, now: Time)
    requires ValidateHardRules(l).None? && (plan.Some? ==> l.kind == PlanKind)
    ensures Judge(Settled(l, plan, final), product, now).Valid? == Judge(Stored(l), product, now).Valid? <==>
              !(OtherwiseGood(l, product, now) && if ProductIsLost(l, plan, product) then !Late(l, now) else WithinGrace(l, now))
  {
    var v, r := Settled(l, plan, final), Stored(l);
    CopyAndRow(l, plan, final, product);
    Expiries(l, v, r, now);
    ValidWhen(v, product, now);
    ValidWhen(r, product, now);
    assert StandsByRow(l, product) <==> l.status != Revoked && !WrongProduct(r, product);
  }
}
