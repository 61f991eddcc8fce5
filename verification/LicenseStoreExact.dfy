/**
 With a second level that loses nothing the cache is exact, not only safe: every version stays visible
 for the second level's time to live, whatever is evicted or negatively cached in between.
 */
module LicenseStoreExact {
  import opened Common
  import opened Domain
  import opened Lru
  import opened LicenseStore
  import opened LicenseStoreRuns

  ghost predicate Negative(st: Store, ck: string) {
    exists it | it in st.l1 :: it.key == ck && it.entry.payload.None?
  }

  function LiveUntil(cfg: Config, v: Version): Time {
    v.at + cfg.ttlL2
  }

  /** The second level is the map of latest versions; a negative entry only stands where that has lapsed. */
  ghost predicate RemoteExact(cfg: Config, st: Store, es: seq<Effect>) {
    st.l2.Some? &&
    forall t, k | ColonFree(t) :: RemoteAt(st.l2.value, CacheKey(t, k)) == Written(cfg, Scoped(es, t, k))
  }

  function RemoteAt(m: Remote, ck: string): Option<Entry<License>> {
    if ck in m then Some(m[ck]) else None
  }

  function Written(cfg: Config, v: Option<Version>): Option<Entry<License>> {
    if v.Some? then Some(Entry(Some(v.value.lic), Some(LiveUntil(cfg, v.value)))) else None
  }

  ghost predicate NegativesLapsed(cfg: Config, st: Store, es: seq<Effect>, clock: Time) {
    forall t, k | ColonFree(t) && Negative(st, CacheKey(t, k)) ::
      Scoped(es, t, k).Some? ==> LiveUntil(cfg, Scoped(es, t, k).value) < clock
  }

  predicate Lossless(ops: seq<Op>) {
    && (forall i | 0 <= i < |ops| :: !ops[i].LoseRemote?)
    && (forall i, j | 0 <= i < j < |ops| :: ops[i].now <= ops[j].now)
  }

  lemma FetchNegatives(cfg: Config, st: Store, t: string, k: string, now: Time)
    requires StoreOk(cfg, st)
    ensures var r := Fetch(cfg, st, t, k, now).0;
            && r.l2 == st.l2
            && forall c | Negative(r, c) && !Negative(st, c) ::
                 c == CacheKey(t, k) && (RemoteGet(st.l2, c, now).Some? ==> RemoteGet(st.l2, c, now).value.payload.None?)
  {
    var ck := CacheKey(t, k);
    ReadOk(st.l1, cfg.cap, ck, now);
    var l1 := Read(st.l1, ck, now).0;
    var local := Read(st.l1, ck, now).1;
    var remote := RemoteGet(st.l2, ck, now);
    if local.Some? {
      WriteOk(l1, cfg.cap, ck, local.value.payload, cfg.ttlActive, now);
    } else if remote.Some? {
      WriteOk(l1, cfg.cap, ck, remote.value.payload, if remote.value.payload.Some? then cfg.ttlL1 else cfg.ttlNegative, now);
    } else {
      WriteOk(l1, cfg.cap, ck, None, cfg.ttlNegative, now);
    }
  }

  lemma FetchGlobalNegatives(cfg: Config, st: Store, k: string, now: Time)
    requires StoreOk(cfg, st)
    ensures var r := FetchGlobal(cfg, st, k, now).0;
            r.l2 == st.l2 && forall c | Negative(r, c) && !Negative(st, c) :: c == GlobalKey(k)
  {
    ReadOk(st.l1, cfg.cap, GlobalKey(k), now);
    WriteOk(Read(st.l1, GlobalKey(k), now).0, cfg.cap, GlobalKey(k), None, cfg.ttlNegative, now);
  }

  lemma PutNegatives(cfg: Config, st: Store, t: string, k: string, lic: License, now: Time)
    requires StoreOk(cfg, st)
    ensures forall c | Negative(Put(cfg, st, t, k, lic, now), c) :: Negative(st, c) && c != CacheKey(t, k)
  {
    var ck := CacheKey(t, k);
    WriteOk(st.l1, cfg.cap, ck, Some(lic), cfg.ttlL1, now);
    WriteOk(Write(st.l1, cfg.cap, ck, Some(lic), cfg.ttlL1, now), cfg.cap, GlobalKey(k), Some(lic), cfg.ttlL1, now);
    GlobalApart(k, t);
  }

  lemma ShrinkNegatives(cfg: Config, st: Store, op: Op)
    requires StoreOk(cfg, st) && (op.Invalidate? || op.InvalidateTenant? || op.Cleanup? || op.LoseLocal?)
    ensures forall c | Negative(Exec(cfg, st, op), c) :: Negative(st, c)
    ensures op.Invalidate? ==> !Negative(Exec(cfg, st, op), CacheKey(op.tenant, op.key))
    ensures op.InvalidateTenant? ==> forall c | Negative(Exec(cfg, st, op), c) :: !HasPrefix(c, TenantPrefix(op.tenant))
  {
    if op.Invalidate? {
      RemoveOk(st.l1, cfg.cap, CacheKey(op.tenant, op.key));
      RemoveOk(Remove(st.l1, CacheKey(op.tenant, op.key)), cfg.cap, GlobalKey(op.key));
    } else if op.InvalidateTenant? {
      RemovePrefixOk(st.l1, cfg.cap, TenantPrefix(op.tenant));
    } else if op.Cleanup? {
      DropExpiredOk(st.l1, op.limit, op.now);
    } else {
      RemoveOk(st.l1, cfg.cap, op.ck);
    }
  }

  ghost predicate Exact(cfg: Config, st: Store, es: seq<Effect>, clock: Time) {
    StoreOk(cfg, st) && RemoteExact(cfg, st, es) && NegativesLapsed(cfg, st, es, clock)
  }

  lemma PutExact(cfg: Config, st: Store, es: seq<Effect>, t: string, k: string, lic: License, now: Time)
    requires Exact(cfg, st, es, now) && ColonFree(t)
    ensures Exact(cfg, Put(cfg, st, t, k, lic, now), es + [Wrote(t, k, Version(lic, now))], now)
  {
    PutOk(cfg, st, t, k, lic, now);
    PutNegatives(cfg, st, t, k, lic, now);
    Snoc(es, Wrote(t, k, Version(lic, now)));
    forall t', k' | ColonFree(t') ensures CacheKey(t', k') == CacheKey(t, k) <==> t' == t && k' == k {
      CacheKeyInjective(t', k', t, k);
    }
  }

  lemma DropExact(cfg: Config, st: Store, es: seq<Effect>, t: string, k: string, now: Time)
    requires Exact(cfg, st, es, now) && ColonFree(t)
    ensures Exact(cfg, Drop(st, t, k), es + [Forgot(t, k)], now)
  {
    DropOk(cfg, st, t, k);
    ShrinkNegatives(cfg, st, Invalidate(t, k, now));
    Snoc(es, Forgot(t, k));
    forall t', k' | ColonFree(t') ensures CacheKey(t', k') == CacheKey(t, k) <==> t' == t && k' == k {
      CacheKeyInjective(t', k', t, k);
    }
  }

  lemma DropTenantExact(cfg: Config, st: Store, es: seq<Effect>, t: string, now: Time)
    requires Exact(cfg, st, es, now) && ColonFree(t)
    ensures Exact(cfg, DropTenant(st, t), es + [ForgotTenant(t)], now)
  {
    DropTenantOk(cfg, st, t);
    ShrinkNegatives(cfg, st, InvalidateTenant(t, now));
    Snoc(es, ForgotTenant(t));
    forall t', k' | ColonFree(t') ensures HasPrefix(CacheKey(t', k'), TenantPrefix(t)) <==> t' == t {
      CacheKeyInjective(t', k', t, k');
    }
  }

  lemma ReadOnlyExact(cfg: Config, st: Store, es: seq<Effect>, op: Op)
    requires Exact(cfg, st, es, op.now)
    requires op.Get? || op.GetByGlobalKey?
    requires op.Get? ==> ColonFree(op.tenant)
    ensures Exact(cfg, Exec(cfg, st, op), es, op.now)
  {
    var st' := Exec(cfg, st, op);
    if op.Get? {
      FetchOk(cfg, st, op.tenant, op.key, op.now);
      FetchNegatives(cfg, st, op.tenant, op.key, op.now);
      assert RemoteAt(st.l2.value, CacheKey(op.tenant, op.key)) == Written(cfg, Scoped(es, op.tenant, op.key));
      forall t, k | ColonFree(t) && Negative(st', CacheKey(t, k))
        ensures Scoped(es, t, k).Some? ==> LiveUntil(cfg, Scoped(es, t, k).value) < op.now
      {
        CacheKeyInjective(t, k, op.tenant, op.key);
      }
    } else {
      FetchGlobalOk(cfg, st, op.key, op.now);
      FetchGlobalNegatives(cfg, st, op.key, op.now);
      forall t, k | ColonFree(t) ensures CacheKey(t, k) != GlobalKey(op.key) {
        RemoteIsScoped(cfg, st, t, k);
        GlobalApart(op.key, t);
      }
    }
  }

  lemma WarmExact(cfg: Config, st: Store, es: seq<Effect>, lic: License, now: Time)
    requires Exact(cfg, st, es, now) && ColonFree(lic.tenant)
    ensures Exact(cfg, WarmOne(cfg, st, lic, now), es + Effects(st, WarmRow(lic, now)), now)
  {
    var ck := CacheKey(lic.tenant, lic.key);
    ReadOk(st.l1, cfg.cap, ck, now);
    var st' := st.(l1 := Read(st.l1, ck, now).0);
    assert Exact(cfg, st', es, now);
    PutExact(cfg, st', es, lic.tenant, lic.key, lic, now);
    assert es + [] == es;
  }

  lemma StepExact(cfg: Config, st: Store, es: seq<Effect>, clock: Time, op: Op)
    requires Exact(cfg, st, es, clock) && clock <= op.now && PlainTenant(op) && !op.LoseRemote?
    ensures Exact(cfg, Exec(cfg, st, op), es + Effects(st, op), op.now)
  {
    assert Exact(cfg, st, es, op.now);
    if op.Set? {
      PutExact(cfg, st, es, op.tenant, op.key, op.lic, op.now);
    } else if op.Invalidate? {
      DropExact(cfg, st, es, op.tenant, op.key, op.now);
    } else if op.InvalidateTenant? {
      DropTenantExact(cfg, st, es, op.tenant, op.now);
    } else if op.WarmRow? {
      WarmExact(cfg, st, es, op.lic, op.now);
    } else {
      assert es + Effects(st, op) == es;
      if op.Cleanup? || op.LoseLocal? {
        LossOk(cfg, st, op);
        ShrinkNegatives(cfg, st, op);
      } else {
        ReadOnlyExact(cfg, st, es, op);
      }
    }
  }

  lemma {:induction false} RunExact(cfg: Config, st: Store, ops: seq<Op>, now: Time)
    requires cfg.cap > 0 && Fresh(st) && st.l2.Some? && PlainTenants(ops) && Lossless(ops)
    requires forall i | 0 <= i < |ops| :: ops[i].now <= now
    ensures Exact(cfg, Run(cfg, st, ops).0, Run(cfg, st, ops).1, now)
    decreases |ops|
  {
    if ops != [] {
      var before, op := ops[..|ops| - 1], ops[|ops| - 1];
      RunExact(cfg, st, before, op.now);
      StepExact(cfg, Run(cfg, st, before).0, Run(cfg, st, before).1, op.now, op);
    }
  }

  /** Within the time to live of the last write a look-up answers exactly the simple map. */
  lemma LookupsAreExact(cfg: Config, st: Store, ops: seq<Op>, t: string, k: string, now: Time)
    requires cfg.cap > 0 && Fresh(st) && st.l2.Some? && PlainTenants(ops) && Lossless(ops) && ColonFree(t)
    requires forall i | 0 <= i < |ops| :: ops[i].now <= now
    ensures var (st', es) := Run(cfg, st, ops);
            var latest := Scoped(es, t, k);
            (latest.Some? ==> now <= LiveUntil(cfg, latest.value)) ==>
              Fetch(cfg, st', t, k, now).1 == if latest.Some? then Some(latest.value.lic) else None
  {
    RunExact(cfg, st, ops, now);
    LookupsAreLatest(cfg, st, ops, t, k, now);
    var (st', es) := Run(cfg, st, ops);
    var ck := CacheKey(t, k);
    assert RemoteAt(st'.l2.value, ck) == Written(cfg, Scoped(es, t, k));
    ReadOk(st'.l1, cfg.cap, ck, now);
    var local := Read(st'.l1, ck, now).1;
    if local.Some? && local.value.payload.None? {
      assert Negative(st', ck);
    }
  }
}
