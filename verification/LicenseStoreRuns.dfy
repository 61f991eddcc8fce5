/**
 Whole runs of the license cache against the simple thing it speeds up: a map from (tenant, key) to the
 last license written, and one from key to the last license written.
 */
module LicenseStoreRuns {
  import opened Common
  import opened Domain
  import opened Lru
  import opened LicenseStore

  /** One operation at one clock reading; the last three are the background clean-up and losses. */
  datatype Op =
    | Get(tenant: string, key: string, now: Time)
    | GetByGlobalKey(key: string, now: Time)
    | Set(tenant: string, key: string, lic: License, now: Time)
    | Invalidate(tenant: string, key: string, now: Time)
    | InvalidateTenant(tenant: string, now: Time)
    | WarmRow(lic: License, now: Time)
    | Cleanup(limit: int, now: Time)
    | LoseLocal(ck: string, now: Time)
    | LoseRemote(ck: string, now: Time)

  /** What an operation meant to the simple maps. */
  datatype Effect =
    | Wrote(tenant: string, key: string, version: Version)
    | Forgot(tenant: string, key: string)
    | ForgotTenant(tenant: string)

  datatype Version = Version(lic: License, at: Time)

  function Exec(cfg: Config, st: Store, op: Op): Store {
    match op
    case Get(t, k, now) => Fetch(cfg, st, t, k, now).0
    case GetByGlobalKey(k, now) => FetchGlobal(cfg, st, k, now).0
    case Set(t, k, lic, now) => Put(cfg, st, t, k, lic, now)
    case Invalidate(t, k, _) => Drop(st, t, k)
    case InvalidateTenant(t, _) => DropTenant(st, t)
    case WarmRow(lic, now) => WarmOne(cfg, st, lic, now)
    case Cleanup(limit, now) => st.(l1 := DropExpired(st.l1, limit, now))
    case LoseLocal(ck, _) => st.(l1 := Remove(st.l1, ck))
    case LoseRemote(ck, _) => st.(l2 := RemoteDelete(st.l2, ck))
  }

  function Effects(st: Store, op: Op): seq<Effect> {
    match op
    case Set(t, k, lic, now) => [Wrote(t, k, Version(lic, now))]
    case Invalidate(t, k, _) => [Forgot(t, k)]
    case InvalidateTenant(t, _) => [ForgotTenant(t)]
    case WarmRow(lic, now) => if Warms(st, lic, now) then [Wrote(lic.tenant, lic.key, Version(lic, now))] else []
    case _ => []
  }

  function Run(cfg: Config, st: Store, ops: seq<Op>): (r: (Store, seq<Effect>))
    decreases |ops|
  {
    if ops == [] then (st, [])
    else
      var (st', es) := Run(cfg, st, ops[..|ops| - 1]);
      var op := ops[|ops| - 1];
      (Exec(cfg, st', op), es + Effects(st', op))
  }

  /** The simple maps after a history. */
  function Scoped(es: seq<Effect>, t: string, k: string): Option<Version>
    decreases |es|
  {
    if es == [] then None
    else match es[|es| - 1]
      case Wrote(t', k', v) => if t' == t && k' == k then Some(v) else Scoped(es[..|es| - 1], t, k)
      case Forgot(t', k') => if t' == t && k' == k then None else Scoped(es[..|es| - 1], t, k)
      case ForgotTenant(t') => if t' == t then None else Scoped(es[..|es| - 1], t, k)
  }

  function Global(es: seq<Effect>, k: string): Option<Version>
    decreases |es|
  {
    if es == [] then None
    else match es[|es| - 1]
      case Wrote(_, k', v) => if k' == k then Some(v) else Global(es[..|es| - 1], k)
      case Forgot(_, k') => if k' == k then None else Global(es[..|es| - 1], k)
      case ForgotTenant(_) => Global(es[..|es| - 1], k)
  }

  /** Tenant ids are generated without colons. */
  predicate PlainTenant(op: Op) {
    match op
    case Get(t, _, _) => ColonFree(t)
    case Set(t, _, _, _) => ColonFree(t)
    case Invalidate(t, _, _) => ColonFree(t)
    case InvalidateTenant(t, _) => ColonFree(t)
    case WarmRow(lic, _) => ColonFree(lic.tenant)
    case _ => true
  }

  predicate PlainTenants(ops: seq<Op>) {
    forall i | 0 <= i < |ops| :: PlainTenant(ops[i])
  }

  /** Everything stored is the latest version in its map. */
  ghost predicate OnlyLatest(st: Store, es: seq<Effect>) {
    && (forall t, k, v | ColonFree(t) && Holds(st, CacheKey(t, k), v) ::
          Scoped(es, t, k).Some? && Scoped(es, t, k).value.lic == v)
    && (forall k, v | Holds(st, GlobalKey(k), v) :: Global(es, k).Some? && Global(es, k).value.lic == v)
  }

  predicate Fresh(st: Store) {
    st.l1 == [] && (st.l2.Some? ==> st.l2.value == map[])
  }

  lemma Snoc(es: seq<Effect>, e: Effect)
    ensures |es + [e]| > 0 && (es + [e])[|es + [e]| - 1] == e && (es + [e])[..|es + [e]| - 1] == es
  {
  }

  /* ---------- one step ---------- */

  lemma PutRefines(cfg: Config, st: Store, es: seq<Effect>, t: string, k: string, lic: License, now: Time)
    requires StoreOk(cfg, st) && OnlyLatest(st, es) && ColonFree(t)
    ensures OnlyLatest(Put(cfg, st, t, k, lic, now), es + [Wrote(t, k, Version(lic, now))])
  {
    var e := Wrote(t, k, Version(lic, now));
    var st' := Put(cfg, st, t, k, lic, now);
    PutOk(cfg, st, t, k, lic, now);
    Snoc(es, e);
    forall t', k', v | ColonFree(t') && Holds(st', CacheKey(t', k'), v)
      ensures Scoped(es + [e], t', k').Some? && Scoped(es + [e], t', k').value.lic == v
    {
      CacheKeyInjective(t', k', t, k);
      RemoteIsScoped(cfg, st, t', k');
      GlobalApart(k, t');
    }
    forall k', v | Holds(st', GlobalKey(k'), v)
      ensures Global(es + [e], k').Some? && Global(es + [e], k').value.lic == v
    {
      RemoteIsScoped(cfg, st, t, k);
      GlobalApart(k', t);
      GlobalApart(k', k);
    }
  }

  lemma DropRefines(cfg: Config, st: Store, es: seq<Effect>, t: string, k: string)
    requires StoreOk(cfg, st) && OnlyLatest(st, es) && ColonFree(t)
    ensures OnlyLatest(Drop(st, t, k), es + [Forgot(t, k)])
  {
    var st', es' := Drop(st, t, k), es + [Forgot(t, k)];
    DropOk(cfg, st, t, k);
    Snoc(es, Forgot(t, k));
    forall t', k', v | ColonFree(t') && Holds(st', CacheKey(t', k'), v)
      ensures Scoped(es', t', k').Some? && Scoped(es', t', k').value.lic == v
    {
      CacheKeyInjective(t', k', t, k);
    }
    forall k', v | Holds(st', GlobalKey(k'), v) ensures Global(es', k').Some? && Global(es', k').value.lic == v {
      GlobalApart(k', k);
    }
  }

  lemma DropTenantRefines(cfg: Config, st: Store, es: seq<Effect>, t: string)
    requires StoreOk(cfg, st) && OnlyLatest(st, es) && ColonFree(t)
    ensures OnlyLatest(DropTenant(st, t), es + [ForgotTenant(t)])
  {
    DropTenantOk(cfg, st, t);
    Snoc(es, ForgotTenant(t));
    forall t', k' | ColonFree(t') ensures HasPrefix(CacheKey(t', k'), TenantPrefix(t)) <==> t' == t {
      CacheKeyInjective(t', k', t, k');
    }
  }

  lemma ShrinkRefines(st: Store, st': Store, es: seq<Effect>)
    requires OnlyLatest(st, es)
    requires forall c, v :: Holds(st', c, v) ==> Holds(st, c, v)
    ensures OnlyLatest(st', es)
  {
  }

  lemma LossOk(cfg: Config, st: Store, op: Op)
    requires StoreOk(cfg, st) && (op.Cleanup? || op.LoseLocal? || op.LoseRemote?)
    ensures StoreOk(cfg, Exec(cfg, st, op))
    ensures forall c, v :: Holds(Exec(cfg, st, op), c, v) ==> Holds(st, c, v)
  {
    if op.Cleanup? {
      DropExpiredOk(st.l1, op.limit, op.now);
    } else if op.LoseLocal? {
      RemoveOk(st.l1, cfg.cap, op.ck);
    }
  }

  lemma WarmRefines(cfg: Config, st: Store, es: seq<Effect>, lic: License, now: Time)
    requires StoreOk(cfg, st) && OnlyLatest(st, es) && ColonFree(lic.tenant)
    ensures StoreOk(cfg, WarmOne(cfg, st, lic, now))
    ensures OnlyLatest(WarmOne(cfg, st, lic, now), es + Effects(st, WarmRow(lic, now)))
  {
    var ck := CacheKey(lic.tenant, lic.key);
    ReadOk(st.l1, cfg.cap, ck, now);
    var st' := st.(l1 := Read(st.l1, ck, now).0);
    ShrinkRefines(st, st', es);
    PutOk(cfg, st', lic.tenant, lic.key, lic, now);
    PutRefines(cfg, st', es, lic.tenant, lic.key, lic, now);
    assert es + [] == es;
  }

  lemma StepRefines(cfg: Config, st: Store, es: seq<Effect>, op: Op)
    requires StoreOk(cfg, st) && OnlyLatest(st, es) && PlainTenant(op)
    ensures StoreOk(cfg, Exec(cfg, st, op)) && OnlyLatest(Exec(cfg, st, op), es + Effects(st, op))
  {
    var st' := Exec(cfg, st, op);
    if op.Set? {
      PutOk(cfg, st, op.tenant, op.key, op.lic, op.now);
      PutRefines(cfg, st, es, op.tenant, op.key, op.lic, op.now);
    } else if op.Invalidate? {
      DropOk(cfg, st, op.tenant, op.key);
      DropRefines(cfg, st, es, op.tenant, op.key);
    } else if op.InvalidateTenant? {
      DropTenantOk(cfg, st, op.tenant);
      DropTenantRefines(cfg, st, es, op.tenant);
    } else if op.WarmRow? {
      WarmRefines(cfg, st, es, op.lic, op.now);
    } else {
      assert es + Effects(st, op) == es;
      if op.Get? {
        FetchOk(cfg, st, op.tenant, op.key, op.now);
      } else if op.GetByGlobalKey? {
        FetchGlobalOk(cfg, st, op.key, op.now);
      } else {
        LossOk(cfg, st, op);
      }
      ShrinkRefines(st, st', es);
    }
  }

  lemma {:induction false} RunRefines(cfg: Config, st: Store, ops: seq<Op>)
    requires cfg.cap > 0 && Fresh(st) && PlainTenants(ops)
    ensures var (st', es) := Run(cfg, st, ops); StoreOk(cfg, st') && OnlyLatest(st', es)
    decreases |ops|
  {
    if ops != [] {
      var before := ops[..|ops| - 1];
      RunRefines(cfg, st, before);
      StepRefines(cfg, Run(cfg, st, before).0, Run(cfg, st, before).1, ops[|ops| - 1]);
    }
  }

  /**
   After every run a look-up answers the last version written for that tenant and key and not forgotten
   since, or not found; never an older one or another tenant's. The length stays within the capacity.
   */
  lemma LookupsAreLatest(cfg: Config, st: Store, ops: seq<Op>, t: string, k: string, now: Time)
    requires cfg.cap > 0 && Fresh(st) && PlainTenants(ops) && ColonFree(t)
    ensures var (st', es) := Run(cfg, st, ops);
            var scoped := Fetch(cfg, st', t, k, now).1;
            var global := FetchGlobal(cfg, st', k, now).1;
            && |st'.l1| <= cfg.cap
            && (scoped.Some? ==> Scoped(es, t, k).Some? && scoped.value == Scoped(es, t, k).value.lic)
            && (global.Some? ==> Global(es, k).Some? && global.value == Global(es, k).value.lic)
  {
    RunRefines(cfg, st, ops);
    FetchOk(cfg, Run(cfg, st, ops).0, t, k, now);
    FetchGlobalOk(cfg, Run(cfg, st, ops).0, k, now);
  }

  /* ---------- the two indices agree ---------- */

  /** License keys are globally unique: whoever writes this key writes it for this tenant. */
  predicate OwnedBy(es: seq<Effect>, t: string, k: string) {
    forall i | 0 <= i < |es| :: es[i].Wrote? && es[i].key == k ==> es[i].tenant == t
  }

  lemma {:induction false} LatestAgree(es: seq<Effect>, t: string, k: string)
    requires OwnedBy(es, t, k)
    ensures Scoped(es, t, k).Some? && Global(es, k).Some? ==> Scoped(es, t, k) == Global(es, k)
    decreases |es|
  {
    if es != [] {
      LatestAgree(es[..|es| - 1], t, k);
    }
  }

  /** When both look-ups find a license it is the same one. */
  lemma IndicesAgree(cfg: Config, st: Store, ops: seq<Op>, t: string, k: string, now: Time)
    requires cfg.cap > 0 && Fresh(st) && PlainTenants(ops) && ColonFree(t) && OwnedBy(Run(cfg, st, ops).1, t, k)
    ensures var st' := Run(cfg, st, ops).0;
            var scoped := Fetch(cfg, st', t, k, now).1;
            var global := FetchGlobal(cfg, st', k, now).1;
            scoped.Some? && global.Some? ==> scoped == global
  {
    LookupsAreLatest(cfg, st, ops, t, k, now);
    LatestAgree(Run(cfg, st, ops).1, t, k);
  }
}
