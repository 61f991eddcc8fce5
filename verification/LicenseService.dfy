/** The administrative, activation and validation services over the license table and its cache. */
module LicenseService {
  import opened Common
  import opened Domain
  import opened Lru
  import opened LicenseStore
  import opened Features
  import opened LicenseSystem
  import opened LicenseCoherence
  import opened LicenseRules
  import Plans = PlanSystem
  import Auth = TenantAuth
  import Validity

  datatype Outcome = Done | InvalidLicense | BrokenRule(rule: RuleError) | DbError | NotFound
                   | LicenseRevoked | LicenseExpired | InGrace | SeatLimit

  /** The features are resolved unless the license names a plan that does not exist. */
  predicate ResolvedFrom(l: License, plan: Option<Plan>, now: Time, final: seq<string>) {
    IsFinal(l, plan, now, final) || (l.kind == PlanKind && l.planId.Some? && plan.None? && final == l.finalFeatures)
  }

  /* ---------- what the answers say ---------- */

  /** The answers that depend on the submitted license alone: a missing name, or the first rule it breaks. */
  ghost predicate Screened(l: License, out: Outcome) {
    && (out == InvalidLicense <==> l.tenant == "" || l.key == "")
    && (out.BrokenRule? <==> l.tenant != "" && l.key != "" && !(WellFormed(l) && DatesMeet(l) && SeatsFit(l)))
    && (out.BrokenRule? ==> Breaks(l, out.rule) && forall d | Rank(d) < Rank(out.rule) :: !Breaks(l, d))
  }

  /** The license row as it is stored: the columns there are, under this id. */
  predicate StoredAs(rows: Table, l: License, id: string) {
    l.key in rows && rows[l.key] == l.(id := id, finalFeatures := [], product := "", graceDays := 0)
  }

  /** Nothing is cached for the tenant under the key, nor under the key alone. */
  ghost predicate Uncached(store: Store, t: string, k: string) {
    forall v {:trigger Holds(store, CacheKey(t, k), v)} {:trigger Holds(store, GlobalKey(k), v)} ::
      !Holds(store, CacheKey(t, k), v) && !Holds(store, GlobalKey(k), v)
  }

  /** The answer of an activation by the fields of the license it found. */
  predicate ActivationAnswer(l: Option<License>, committed: bool, now: Time, out: Outcome) {
    if l.None? then out == NotFound
    else
      var v := l.value;
      var late := v.expiresAt.Some? && v.expiresAt.value < now;
      var end := if v.expiresAt.Some? then v.expiresAt.value + v.graceDays * DAY else now;
      if v.status == Revoked then out == LicenseRevoked
      else if late && (v.graceDays <= 0 || end < now) then out == LicenseExpired
      else if late && now < end then out == InGrace
      else if v.seatsTotal != -1 && v.seatsUsed >= v.seatsTotal then out == SeatLimit
      else out == if committed then Done else DbError
  }

  /* ---------- the step of each operation, spelled out ---------- */

  lemma SaveStep(cfg: LicenseSystem.Config, s: Sys, op: Op)
    requires op.CreateLicense? || op.UpdateLicense?
    ensures Exec(cfg, s, op)
         == if Creates(s, op) || Updates(op)
            then Sys(RowsAfter(s, op), Saved(cfg, s, op), PlanFor(cfg, s, Submitted(op), op.planOk, op.now).0, s.tenants)
            else s
  {
  }

  lemma RevokeStep(cfg: LicenseSystem.Config, s: Sys, t: string, k: string, execOk: bool, findOk: bool, now: Time)
    ensures var op, rows := Op.RevokeLicense(t, k, execOk, findOk, now), if execOk then RevokeRow(s.rows, t, k) else s.rows;
            Exec(cfg, s, op) ==
              if Revokes(s, op) then s.(rows := rows, store := Put(cfg.store, s.store, t, k, rows[k], now)) else s.(rows := rows)
  {
  }

  lemma ActivateStep(cfg: LicenseSystem.Config, s: Sys, t: string, k: string, dbOk: bool, committed: bool, now: Time)
    ensures var (store, l) := ResolveLicense(cfg, s, t, k, dbOk, now);
            Exec(cfg, s, Op.Activate(t, k, dbOk, committed, now)) ==
              s.(store := if l.Some? && MayActivate(l.value, now) && committed then Drop(store, t, k) else store)
  {
  }

  lemma DeactivateStep(cfg: LicenseSystem.Config, s: Sys, t: string, k: string, dbOk: bool, released: bool, now: Time)
    ensures var (store, l) := ResolveLicense(cfg, s, t, k, dbOk, now);
            Exec(cfg, s, Op.Deactivate(t, k, dbOk, released, now)) ==
              s.(store := if l.Some? && released then Drop(store, t, k) else store)
  {
  }

  /** A coherent cache holds a license only for the owner of its row, and shows a revocation of that row. */
  lemma CopyIsJudged(s: Sys, t: string, k: string, l: License, product: string, now: Time)
    requires CoherentAt(s, k) && ColonFree(t) && Holds(s.store, CacheKey(t, k), l)
    ensures FindByKey(s.rows, t, k).Some?
    ensures s.rows[k].status == Revoked ==> Validity.Judge(l, product, now) == Validity.Invalid(Validity.LicenseRevoked)
  {
    assert Core(l).status == Core(s.rows[k]).status;
  }

  class Service {
    const cfg: LicenseSystem.Config
    const cache: LicenseCache
    const plans: Plans.PlanAdmin
    const tenants: Auth.TenantService
    var rows: Table

    /** All caches are on one second level and otherwise apart. */
    ghost predicate Valid()
      reads this, cache, cache.l1, cache.l2, plans, plans.cache, tenants, tenants.cache, tenants.licenses, tenants.licenses.l1, tenants.licenses.l2
    {
      && cache.Valid() && cache.cfg == cfg.store
      && plans.Valid() && plans.cfg == cfg.plans && plans.l2 == cache.l2
      && tenants.Valid() && tenants.cfg == cfg.tenants && tenants.licenses == cache
      && (cache.l1 as object) != plans.cache && (tenants.cache as object) != plans.cache
      && (forall k | k in rows :: rows[k].key == k)
    }

    ghost function Now(): Sys
      reads this, cache, cache.l1, cache.l2, plans, plans.cache, tenants, tenants.cache
    {
      Sys(rows, cache.State(), plans.Now(), tenants.Now())
    }

    constructor (cfg: LicenseSystem.Config, cache: LicenseCache, plans: Plans.PlanAdmin, tenants: Auth.TenantService)
      requires cache.Valid() && cache.cfg == cfg.store
      requires plans.Valid() && plans.cfg == cfg.plans && plans.l2 == cache.l2 && (cache.l1 as object) != plans.cache
      requires tenants.Valid() && tenants.cfg == cfg.tenants && tenants.licenses == cache && (tenants.cache as object) != plans.cache
      ensures Valid() && this.cfg == cfg && this.cache == cache && this.plans == plans && this.tenants == tenants && rows == map[]
    {
      this.cfg := cfg;
      this.cache := cache;
      this.plans := plans;
      this.tenants := tenants;
      rows := map[];
    }

    /** Looks the plan of a license up through the plan cache. */
    method FindPlan(l: License, planOk: bool, now: Time) returns (p: Option<Plan>)
      requires Valid() && NamesPlan(l)
      modifies plans.cache, cache.l2
      ensures Valid() && rows == old(rows) && tenants.Now() == old(tenants.Now())
      ensures cache.State() == Disturbed(old(cache.State()), PlanElsewhere(cfg, old(Now()), l, planOk, now))
      ensures (plans.Now(), p) == PlanFor(cfg, old(Now()), l, planOk, now)
    {
      DisturbOk(cfg.store, cache.State(), PlanElsewhere(cfg, Now(), l, planOk, now));
      p := plans.CacheGet(l.tenant, l.planId.value, now);
      if p.None? && planOk {
        p := Plans.FindById(plans.rows, l.tenant, l.planId.value);
        if p.Some? {
          plans.CachePut(l.tenant, l.planId.value, p.value, now);
        }
      }
    }

    /** Fills in what the license derives from its plan. */
    method Settle(l: License, planOk: bool, now: Time) returns (saved: License)
      requires Valid()
      modifies plans.cache, cache.l2
      ensures Valid() && rows == old(rows) && tenants.Now() == old(tenants.Now())
      ensures cache.State() == Disturbed(old(cache.State()), PlanElsewhere(cfg, old(Now()), l, planOk, now))
      ensures var (ps, plan) := PlanFor(cfg, old(Now()), l, planOk, now);
              && plans.Now() == ps
              && saved == Settled(l, plan, saved.finalFeatures)
              && ResolvedFrom(l, plan, now, saved.finalFeatures)
    {
      saved := l;
      if l.kind == PlanKind && l.planId.Some? {
        var p := FindPlan(l, planOk, now);
        if p.Some? {
          var final := ResolveFinalFeatures(l, p, now);
          saved := saved.(finalFeatures := final);
          if p.value.productId.Some? {
            saved := saved.(productId := p.value.productId, product := p.value.productId.value);
          }
        }
      } else {
        var final := ResolveFinalFeatures(l, None, now);
        saved := saved.(finalFeatures := final);
      }
    }

    /** Settles a submitted license and writes it through. */
    method Cache(l: License, planOk: bool, now: Time) returns (final: seq<string>)
      requires Valid()
      modifies cache.l1, cache.l2, plans.cache
      ensures Valid() && rows == old(rows) && tenants.Now() == old(tenants.Now())
      ensures var (ps, plan) := PlanFor(cfg, old(Now()), l, planOk, now);
              var store := Disturbed(old(cache.State()), PlanElsewhere(cfg, old(Now()), l, planOk, now));
              && plans.Now() == ps && ResolvedFrom(l, plan, now, final)
              && cache.State() == Put(cfg.store, store, l.tenant, l.key, Settled(l, plan, final), now)
    {
      var saved := Settle(l, planOk, now);
      final := saved.finalFeatures;
      cache.Set(l.tenant, l.key, saved, now);
    }

    method CreateLicense(l: License, freshId: string, planOk: bool, dbOk: bool, now: Time)
      returns (out: Outcome, final: seq<string>)
      requires Valid()
      modifies this, cache.l1, cache.l2, plans.cache
      ensures Valid() && Now() == Exec(cfg, old(Now()), Op.CreateLicense(l, freshId, final, planOk, dbOk, now))
      ensures out == Done <==> Creates(old(Now()), Op.CreateLicense(l, freshId, final, planOk, dbOk, now))
      ensures out == Done ==> ResolvedFrom(Identified(l, freshId), PlanFor(cfg, old(Now()), Identified(l, freshId), planOk, now).1, now, final)
      ensures Screened(l, out) && (out == Done ==> StoredAs(rows, l, if l.id == "" then freshId else l.id))
      ensures out == Done && l.status != Revoked ==>
                Usable(SavedCopy(cfg, old(Now()), Op.CreateLicense(l, freshId, final, planOk, dbOk, now)))
    {
      final := [];
      var refusal := Screen(l);
      if refusal != Done {
        return refusal, final;
      }
      if !dbOk || l.key in rows {
        return DbError, final;
      }
      var saved := l;
      if saved.id == "" {
        saved := saved.(id := freshId);
      }
      final := Insert(saved, planOk, now);
      SaveStep(cfg, old(Now()), Op.CreateLicense(l, freshId, final, planOk, dbOk, now));
      SavedIsUsable(cfg, old(Now()), Op.CreateLicense(l, freshId, final, planOk, dbOk, now));
      out := Done;
    }

    /** What is refused without asking the database. */
    method Screen(l: License) returns (out: Outcome)
      ensures out == Done || out == InvalidLicense || out.BrokenRule?
      ensures (out == Done <==> Acceptable(l)) && Screened(l, out)
    {
      if l.tenant == "" || l.key == "" {
        return InvalidLicense;
      }
      PassesIff(l);
      var rule := ValidateHardRules(l);
      if rule.Some? {
        FirstRuleBroken(l, rule.value);
        return BrokenRule(rule.value);
      }
      return Done;
    }

    /** A new row, settled and written through. */
    method Insert(l: License, planOk: bool, now: Time) returns (final: seq<string>)
      requires Valid()
      modifies this, cache.l1, cache.l2, plans.cache
      ensures Valid()
      ensures var (ps, plan) := PlanFor(cfg, old(Now()), l, planOk, now);
              var store := Disturbed(old(cache.State()), PlanElsewhere(cfg, old(Now()), l, planOk, now));
              && ResolvedFrom(l, plan, now, final)
              && Now() == Sys(old(rows)[l.key := Stored(l)],
                              Put(cfg.store, store, l.tenant, l.key, Settled(l, plan, final), now), ps, old(tenants.Now()))
    {
      rows := rows[l.key := Stored(l)];
      final := Cache(l, planOk, now);
    }

    method UpdateLicense(l: License, planOk: bool, dbOk: bool, now: Time) returns (out: Outcome, final: seq<string>)
      requires Valid()
      modifies this, cache.l1, cache.l2, plans.cache
      ensures Valid() && Now() == Exec(cfg, old(Now()), Op.UpdateLicense(l, final, planOk, dbOk, now))
      ensures out == Done <==> Updates(Op.UpdateLicense(l, final, planOk, dbOk, now))
      ensures out == Done ==> ResolvedFrom(l, PlanFor(cfg, old(Now()), l, planOk, now).1, now, final)
      ensures Screened(l, out)
      ensures out == Done && l.key in old(rows) && old(rows)[l.key].tenant == l.tenant ==> StoredAs(rows, l, old(rows)[l.key].id)
      ensures out == Done && !(l.key in old(rows) && old(rows)[l.key].tenant == l.tenant) ==> rows == old(rows)
      ensures out == Done && l.status != Revoked ==>
                Usable(SavedCopy(cfg, old(Now()), Op.UpdateLicense(l, final, planOk, dbOk, now)))
    {
      final := [];
      var refusal := Screen(l);
      if refusal != Done {
        return refusal, final;
      }
      if !dbOk {
        return DbError, final;
      }
      final := Change(l, planOk, now);
      SaveStep(cfg, old(Now()), Op.UpdateLicense(l, final, planOk, dbOk, now));
      SavedIsUsable(cfg, old(Now()), Op.UpdateLicense(l, final, planOk, dbOk, now));
      out := Done;
    }

    /** The row, if the tenant has one, changed, settled and written through. */
    method Change(l: License, planOk: bool, now: Time) returns (final: seq<string>)
      requires Valid()
      modifies this, cache.l1, cache.l2, plans.cache
      ensures Valid()
      ensures var (ps, plan) := PlanFor(cfg, old(Now()), l, planOk, now);
              var store := Disturbed(old(cache.State()), PlanElsewhere(cfg, old(Now()), l, planOk, now));
              && ResolvedFrom(l, plan, now, final)
              && Now() == Sys(UpdateRow(old(rows), l), Put(cfg.store, store, l.tenant, l.key, Settled(l, plan, final), now),
                              ps, old(tenants.Now()))
    {
      rows := UpdateRow(rows, l);
      final := Cache(l, planOk, now);
    }

    method RevokeLicense(tenant: string, key: string, execOk: bool, findOk: bool, now: Time) returns (out: Outcome)
      requires Valid()
      modifies this, cache.l1, cache.l2
      ensures Valid() && Now() == Exec(cfg, old(Now()), Op.RevokeLicense(tenant, key, execOk, findOk, now))
      ensures out == Done <==> Revokes(old(Now()), Op.RevokeLicense(tenant, key, execOk, findOk, now))
      ensures rows == if execOk && key in old(rows) && old(rows)[key].tenant == tenant
                      then old(rows)[key := old(rows)[key].(status := Revoked)] else old(rows)
      ensures out == if !execOk || !findOk then DbError
                     else if key in old(rows) && old(rows)[key].tenant == tenant then Done else NotFound
    {
      RevokeStep(cfg, Now(), tenant, key, execOk, findOk, now);
      if !execOk {
        return DbError;
      }
      rows := RevokeRow(rows, tenant, key);
      if !findOk {
        return DbError;
      }
      var lic := FindByKey(rows, tenant, key);
      if lic.None? {
        return NotFound;
      }
      cache.Set(tenant, key, lic.value, now);
      return Done;
    }

    method Resolve(tenant: string, key: string, dbOk: bool, now: Time) returns (found: Option<License>)
      requires Valid()
      modifies cache.l1, cache.l2
      ensures Valid() && Now() == old(Now()).(store := cache.State())
      ensures (cache.State(), found) == ResolveLicense(cfg, old(Now()), tenant, key, dbOk, now)
    {
      found := cache.Get(tenant, key, now);
      if found.Some? {
        return;
      }
      if !dbOk {
        return None;
      }
      found := FindByKey(rows, tenant, key);
      if found.Some? {
        cache.Set(tenant, key, found.value, now);
      }
    }

    /** `committed` is the answer of the locked transaction, which is reached only past the checks. */
    method Activate(tenant: string, key: string, dbOk: bool, committed: bool, now: Time) returns (out: Outcome)
      requires Valid()
      modifies cache.l1, cache.l2
      ensures Valid() && Now() == Exec(cfg, old(Now()), Op.Activate(tenant, key, dbOk, committed, now))
      ensures var l := ResolveLicense(cfg, old(Now()), tenant, key, dbOk, now).1;
              ActivationAnswer(l, committed, now, out) && (out == Done <==> l.Some? && MayActivate(l.value, now) && committed)
      ensures out == Done ==> Uncached(cache.State(), tenant, key)
    {
      ActivateStep(cfg, Now(), tenant, key, dbOk, committed, now);
      var l := Resolve(tenant, key, dbOk, now);
      if l.None? {
        return NotFound;
      }
      var refusal := Check(l.value, now);
      if refusal != Done {
        return refusal;
      }
      if !committed {
        return DbError;
      }
      DropOk(cfg.store, cache.State(), tenant, key);
      cache.Invalidate(tenant, key);
      return Done;
    }

    /** What the service looks at before the transaction. */
    method Check(l: License, now: Time) returns (out: Outcome)
      ensures ActivationAnswer(Some(l), true, now, out) && (out == Done <==> MayActivate(l, now)) && out != DbError
    {
      Validity.GraceTimesDay(l.graceDays);
      if l.IsRevoked() {
        return LicenseRevoked;
      }
      if l.IsExpired(now) {
        return LicenseExpired;
      }
      if l.IsInGracePeriod(now) {
        return InGrace;
      }
      if l.seatsTotal != -1 && l.seatsUsed >= l.seatsTotal {
        return SeatLimit;
      }
      return Done;
    }

    method Deactivate(tenant: string, key: string, dbOk: bool, released: bool, now: Time) returns (out: Outcome)
      requires Valid()
      modifies cache.l1, cache.l2
      ensures Valid() && Now() == Exec(cfg, old(Now()), Op.Deactivate(tenant, key, dbOk, released, now))
      ensures var l := ResolveLicense(cfg, old(Now()), tenant, key, dbOk, now).1;
              out == if l.None? then NotFound else if released then Done else DbError
      ensures out == Done ==> Uncached(cache.State(), tenant, key)
    {
      DeactivateStep(cfg, Now(), tenant, key, dbOk, released, now);
      var l := Resolve(tenant, key, dbOk, now);
      if l.None? {
        return NotFound;
      }
      if !released {
        return DbError;
      }
      DropOk(cfg.store, cache.State(), tenant, key);
      cache.Invalidate(tenant, key);
      return Done;
    }

    /** The license part of a validation: it reads only the cache and judges what that answers. */
    method Validate(tenant: string, key: string, product: string, now: Time) returns (verdict: Option<Validity.Verdict>)
      requires Valid()
      modifies cache.l1, cache.l2
      ensures Valid() && Now() == Exec(cfg, old(Now()), Op.Validate(tenant, key, now))
      ensures var l := Fetch(cfg.store, old(Now()).store, tenant, key, now).1;
              verdict == if l.None? then None else Some(Validity.Judge(l.value, product, now))
      ensures verdict.Some? && ColonFree(tenant) && CoherentAt(old(Now()), key) ==>
                FindByKey(rows, tenant, key).Some? && (rows[key].status == Revoked ==> verdict == Some(Validity.Invalid(Validity.LicenseRevoked)))
    {
      FetchOk(cfg.store, cache.State(), tenant, key, now);
      var l := cache.Get(tenant, key, now);
      if l.None? {
        return None;
      }
      if CoherentAt(old(Now()), key) && ColonFree(tenant) {
        CopyIsJudged(old(Now()), tenant, key, l.value, product, now);
      }
      return Some(Validity.Judge(l.value, product, now));
    }
  }
}
