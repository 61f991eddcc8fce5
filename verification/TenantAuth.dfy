/** Authentication through the tenant cache agrees with the tenant row over every serial run. */
module TenantAuth {
  import opened Common
  import opened Domain
  import opened Lru
  import opened LicenseStore
  import opened TenantSystem

  ghost predicate Caches(l1: Items, ck: string, t: Tenant) {
    exists it | it in l1 :: it.key == ck && it.entry.payload == Some(t)
  }

  /** Everything but the profile, which is written through under the current key only. */
  function Essence(t: Tenant): Tenant {
    t.(profile := Profile("", false))
  }

  ghost predicate Agree(s: State) {
    forall id, hash, t | PlainId(id) && Caches(s.l1, CacheKey(id, hash), t) ::
      id in s.rows && Essence(t) == Essence(s.rows[id])
  }

  ghost predicate Sound(cfg: TenantConfig, s: State) {
    && cfg.cap > 0 && Ok(s.l1, cfg.cap)
    && (forall id | id in s.rows :: s.rows[id].id == id && PlainId(id))
    && Agree(s)
  }

  /** A suspension whose second look-up fails leaves the cached tenant in place and still reports success. */
  predicate Lapses(s: State, op: Op) {
    op.Suspend? && Suspends(s, op) && !op.againOk
  }

  lemma PutTenantOk(cfg: TenantConfig, l1: Items, id: string, hash: string, t: Tenant, now: Time)
    requires cfg.cap > 0 && Ok(l1, cfg.cap)
    ensures var r := PutTenant(cfg, l1, id, hash, t, now);
            && Ok(r, cfg.cap)
            && (forall c, u :: Caches(r, c, u) ==>
                  if c == CacheKey(id, hash) || c == CacheKey(BY_KEY, hash) then u == t else Caches(l1, c, u))
  {
    WriteOk(l1, cfg.cap, CacheKey(id, hash), Some(t), cfg.ttl, now);
    var mid := Write(l1, cfg.cap, CacheKey(id, hash), Some(t), cfg.ttl, now);
    WriteOk(mid, cfg.cap, CacheKey(BY_KEY, hash), Some(t), cfg.ttl, now);
  }

  lemma PutTenantAgrees(cfg: TenantConfig, s: State, hash: string, t: Tenant, now: Time)
    requires cfg.cap > 0 && Ok(s.l1, cfg.cap) && Agree(s)
    requires PlainId(t.id) && t.id in s.rows && Essence(t) == Essence(s.rows[t.id])
    ensures var s' := s.(l1 := PutTenant(cfg, s.l1, t.id, hash, t, now)); Ok(s'.l1, cfg.cap) && Agree(s')
  {
    PutTenantOk(cfg, s.l1, t.id, hash, t, now);
    forall id, h | PlainId(id)
      ensures CacheKey(id, h) != CacheKey(BY_KEY, hash) && (CacheKey(id, h) == CacheKey(t.id, hash) ==> id == t.id)
    {
      CacheKeyInjective(id, h, BY_KEY, hash);
      CacheKeyInjective(id, h, t.id, hash);
    }
  }

  lemma ShrinkAgrees(s: State, l1: Items)
    requires Agree(s) && forall c, u :: Caches(l1, c, u) ==> Caches(s.l1, c, u)
    ensures Agree(s.(l1 := l1))
  {
  }

  lemma AuthenticateOk(cfg: TenantConfig, l1: Items, id: string, hash: string, remoteHit: bool, now: Time)
    requires cfg.cap > 0 && Ok(l1, cfg.cap)
    ensures var r := Authenticate(cfg, l1, id, hash, remoteHit, now);
            && Ok(r.0, cfg.cap)
            && (forall c, u :: Caches(r.0, c, u) ==> Caches(l1, c, u))
            && (r.1.Some? ==> Caches(l1, CacheKey(id, hash), r.1.value) && r.1.value.Accepts(hash, now))
  {
    var ck := CacheKey(id, hash);
    ReadOk(l1, cfg.cap, ck, now);
    var items := Read(l1, ck, now).0;
    if Read(l1, ck, now).1.None? {
      WriteOk(items, cfg.cap, ck, None, cfg.ttlNegative, now);
    } else {
      RemoveOk(items, cfg.cap, ck);
      RemoveOk(Remove(items, ck), cfg.cap, CacheKey(BY_KEY, hash));
    }
  }

  lemma AuthenticateByKeyOk(cfg: TenantConfig, l1: Items, hash: string, remoteHit: bool, now: Time)
    requires cfg.cap > 0 && Ok(l1, cfg.cap)
    ensures var r := AuthenticateByKey(cfg, l1, hash, remoteHit, now);
            Ok(r.0, cfg.cap) && forall c, u :: Caches(r.0, c, u) ==> Caches(l1, c, u)
  {
    var ck := CacheKey(BY_KEY, hash);
    ReadOk(l1, cfg.cap, ck, now);
    WriteOk(Read(l1, ck, now).0, cfg.cap, ck, None, cfg.ttlNegative, now);
  }

  /** A miss the second level does not answer is remembered if there is room, and leaves no trace otherwise. */
  lemma MissIsRemembered(cfg: TenantConfig, l1: Items, id: string, hash: string, remoteHit: bool, now: Time)
    requires cfg.cap > 0 && Ok(l1, cfg.cap) && Read(l1, CacheKey(id, hash), now).1.None?
    ensures var kept, after := Read(l1, CacheKey(id, hash), now).0, Authenticate(cfg, l1, id, hash, remoteHit, now).0;
            if !remoteHit && |kept| < cfg.cap * 9 / 10
            then Lookup(after, CacheKey(id, hash)) == Some(Entry(None, Expiry(cfg.ttlNegative, now)))
            else after == kept
  {
    ReadOk(l1, cfg.cap, CacheKey(id, hash), now);
    WriteOk(Read(l1, CacheKey(id, hash), now).0, cfg.cap, CacheKey(id, hash), None, cfg.ttlNegative, now);
  }

  /** A cached tenant that no longer accepts the key is not answered, and nothing stays cached under that key. */
  lemma DisownedIsDropped(cfg: TenantConfig, l1: Items, id: string, hash: string, remoteHit: bool, now: Time)
    requires cfg.cap > 0 && Ok(l1, cfg.cap)
    ensures var e, r := Read(l1, CacheKey(id, hash), now).1, Authenticate(cfg, l1, id, hash, remoteHit, now);
            e.Some? && e.value.payload.Some? && e.value.payload.value.apiKey != hash
              && (e.value.payload.value.oldUntil.Some? ==> e.value.payload.value.oldUntil.value <= now) ==>
                r.1.None? && forall u :: !Caches(r.0, CacheKey(id, hash), u) && !Caches(r.0, CacheKey(BY_KEY, hash), u)
    ensures var r := AuthenticateByKey(cfg, l1, hash, remoteHit, now);
            r.1.Some? ==> Caches(l1, CacheKey(BY_KEY, hash), r.1.value) && r.1.value.Accepts(hash, now)
  {
    var ck := CacheKey(id, hash);
    ReadOk(l1, cfg.cap, ck, now);
    ReadOk(l1, cfg.cap, CacheKey(BY_KEY, hash), now);
    RemoveOk(Read(l1, ck, now).0, cfg.cap, ck);
    RemoveOk(Remove(Read(l1, ck, now).0, ck), cfg.cap, CacheKey(BY_KEY, hash));
  }

  /** Changing one row is safe once everything filed under that tenant has been dropped. */
  lemma DroppedAgrees(cfg: TenantConfig, s: State, rows: Table, l1: Items, id: string)
    requires Ok(s.l1, cfg.cap) && Agree(s) && PlainId(id)
    requires forall other | other != id && other in s.rows :: other in rows && rows[other] == s.rows[other]
    requires forall c, u :: Caches(l1, c, u) ==> Caches(s.l1, c, u) && !HasPrefix(c, TenantPrefix(id))
    ensures Agree(State(rows, l1))
  {
    forall id', h | ColonFree(id') ensures HasPrefix(CacheKey(id', h), TenantPrefix(id)) <==> id' == id {
      CacheKeyInjective(id', h, id, h);
    }
  }

  lemma ChangeSound(cfg: TenantConfig, s: State, id: string, f: Tenant -> Tenant)
    requires Sound(cfg, s) && PlainId(id) && forall t :: f(t).id == t.id
    ensures Sound(cfg, Change(s, id, f))
  {
    RemovePrefixOk(s.l1, cfg.cap, TenantPrefix(id));
    DroppedAgrees(cfg, s, SetRow(s.rows, id, f), DropAll(s.l1, id), id);
  }

  lemma SuspendSound(cfg: TenantConfig, s: State, op: Op)
    requires Sound(cfg, s) && op.Suspend? && PlainId(op.id) && op.againOk
    ensures Sound(cfg, Exec(cfg, s, op))
  {
    if Suspends(s, op) {
      var l1 := DropAll(s.l1, op.id);
      RemovePrefixOk(s.l1, cfg.cap, TenantPrefix(op.id));
      RemoveOk(l1, cfg.cap, CacheKey(op.id, s.rows[op.id].apiKey));
      RemoveOk(Remove(l1, CacheKey(op.id, s.rows[op.id].apiKey)), cfg.cap, CacheKey(BY_KEY, s.rows[op.id].apiKey));
      var s' := Exec(cfg, s, op);
      DroppedAgrees(cfg, s, s'.rows, s'.l1, op.id);
    }
  }

  lemma CreateSound(cfg: TenantConfig, s: State, op: Op)
    requires Sound(cfg, s) && op.Create? && PlainId(op.id)
    ensures Sound(cfg, Exec(cfg, s, op))
  {
    var s' := Exec(cfg, s, op);
    if s' != s {
      var mid := s.(rows := s'.rows);
      assert Agree(mid);
      PutTenantAgrees(cfg, mid, op.hash, NewTenant(op), op.now);
    }
  }

  lemma ProfileSound(cfg: TenantConfig, s: State, op: Op)
    requires Sound(cfg, s) && op.UpdateProfile? && PlainId(op.id)
    ensures Sound(cfg, Exec(cfg, s, op))
  {
    var s' := Exec(cfg, s, op);
    var mid := s.(rows := s'.rows);
    assert Agree(mid);
    if op.dbOk && op.findOk && op.id in s.rows {
      PutTenantAgrees(cfg, mid, mid.rows[op.id].apiKey, mid.rows[op.id], op.now);
    }
  }

  lemma WarmSound(cfg: TenantConfig, s: State, op: Op)
    requires Sound(cfg, s) && op.Warm?
    ensures Sound(cfg, Exec(cfg, s, op))
  {
    if op.id in s.rows {
      var t := s.rows[op.id];
      PutTenantAgrees(cfg, s, t.apiKey, t, op.now);
      PutTenantAgrees(cfg, s.(l1 := PutTenant(cfg, s.l1, t.id, t.apiKey, t, op.now)), t.oldKey, t, op.now);
    }
  }

  lemma StepSound(cfg: TenantConfig, s: State, op: Op)
    requires Sound(cfg, s) && Plain(op) && !Lapses(s, op)
    ensures Sound(cfg, Exec(cfg, s, op))
  {
    match op
    case Create(_, _, _, _, _, _, _) => CreateSound(cfg, s, op);
    case Suspend(_, _, againOk) => if againOk { SuspendSound(cfg, s, op); }
    case Reinstate(id, _) => ChangeSound(cfg, s, id, (t: Tenant) => t.(status := Good));
    case Delete(id, _) => ChangeSound(cfg, s, id, (t: Tenant) => t.(status := Deleted));
    case Rotate(id, hash, grace, _, now) => ChangeSound(cfg, s, id, (t: Tenant) => Rotated(t, hash, grace, now));
    case UpdateLimits(id, rps, burst, _) => ChangeSound(cfg, s, id, (t: Tenant) => t.(rps := rps, burst := burst));
    case UpdateAllowlist(id, list, _) => ChangeSound(cfg, s, id, (t: Tenant) => t.(allowlist := list));
    case UpdateProfile(_, _, _, _, _) => ProfileSound(cfg, s, op);
    case Warm(_, _) => WarmSound(cfg, s, op);
    case Get(id, hash, remoteHit, now) =>
      AuthenticateOk(cfg, s.l1, id, hash, remoteHit, now);
      ShrinkAgrees(s, Authenticate(cfg, s.l1, id, hash, remoteHit, now).0);
    case GetByKey(hash, remoteHit, now) =>
      AuthenticateByKeyOk(cfg, s.l1, hash, remoteHit, now);
      ShrinkAgrees(s, AuthenticateByKey(cfg, s.l1, hash, remoteHit, now).0);
    case Cleanup(limit, now) =>
      DropExpiredOk(s.l1, limit, now);
      ShrinkAgrees(s, DropExpired(s.l1, limit, now));
    case Lose(ck) =>
      RemoveOk(s.l1, cfg.cap, ck);
      ShrinkAgrees(s, Remove(s.l1, ck));
  }

  predicate GoodRun(cfg: TenantConfig, s: State, ops: seq<Op>) {
    forall i | 0 <= i < |ops| :: Plain(ops[i]) && !Lapses(Run(cfg, s, ops[..i]), ops[i])
  }

  lemma {:induction false} RunSound(cfg: TenantConfig, s: State, ops: seq<Op>)
    requires Sound(cfg, s) && GoodRun(cfg, s, ops)
    ensures Sound(cfg, Run(cfg, s, ops))
    decreases |ops|
  {
    if ops != [] {
      var before, op := ops[..|ops| - 1], ops[|ops| - 1];
      forall i | 0 <= i < |before| ensures Plain(before[i]) && !Lapses(Run(cfg, s, before[..i]), before[i]) {
        assert before[..i] == ops[..i];
      }
      RunSound(cfg, s, before);
      assert before == ops[..|ops| - 1];
      StepSound(cfg, Run(cfg, s, before), op);
    }
  }

  lemma CachedIsRow(s: State, id: string, hash: string, t: Tenant)
    requires Agree(s) && PlainId(id) && Caches(s.l1, CacheKey(id, hash), t)
    ensures id in s.rows && t.status == s.rows[id].status && t.id == s.rows[id].id && SameKeys(t, s.rows[id])
  {
    var e, row := Essence(t), Essence(s.rows[id]);
    assert e.apiKey == row.apiKey && e.oldKey == row.oldKey && e.oldUntil == row.oldUntil && e.id == row.id && e.status == row.status;
  }

  /** In a sound state whoever authenticates is the row: same id, status, limits and keys. */
  lemma AuthenticatedIsRow(cfg: TenantConfig, s: State, id: string, hash: string, remoteHit: bool, now: Time)
    requires Sound(cfg, s) && PlainId(id)
    ensures var t := Authenticate(cfg, s.l1, id, hash, remoteHit, now).1;
            t.Some? ==>
              && id in s.rows && s.rows[id].Accepts(hash, now) && Essence(t.value) == Essence(s.rows[id])
              && t.value.id == id && t.value.status == s.rows[id].status
  {
    AuthenticateOk(cfg, s.l1, id, hash, remoteHit, now);
    var t := Authenticate(cfg, s.l1, id, hash, remoteHit, now).1;
    if t.Some? {
      CachedIsRow(s, id, hash, t.value);
    }
  }

  /**
   After every serial run, authentication by tenant and key succeeds only for a key the row accepts at that
   moment, and what it answers has the row's current status, limits and allow-list.
   */
  lemma AuthenticationMatchesRow(cfg: TenantConfig, ops: seq<Op>, id: string, hash: string, remoteHit: bool, now: Time)
    requires cfg.cap > 0 && GoodRun(cfg, State(map[], []), ops) && PlainId(id)
    ensures var s := Run(cfg, State(map[], []), ops);
            var t := Authenticate(cfg, s.l1, id, hash, remoteHit, now).1;
            t.Some? ==> id in s.rows && s.rows[id].Accepts(hash, now) && Essence(t.value) == Essence(s.rows[id])
  {
    RunSound(cfg, State(map[], []), ops);
    AuthenticatedIsRow(cfg, Run(cfg, State(map[], []), ops), id, hash, remoteHit, now);
  }

  /* ---------- out of standing ---------- */

  /** The row is suspended or deleted, and so is every cached copy of the tenant. */
  ghost predicate OutOfStanding(s: State, id: string) {
    && id in s.rows && s.rows[id].status != Good
    && forall hash, t | Caches(s.l1, CacheKey(id, hash), t) :: t.status != Good
  }

  /** An entry put for one tenant stands at no place of another's. */
  lemma PutApart(cfg: TenantConfig, l1: Items, id: string, hash: string, t: Tenant, now: Time, other: string)
    requires cfg.cap > 0 && Ok(l1, cfg.cap) && PlainId(id) && PlainId(other)
    ensures var r := PutTenant(cfg, l1, id, hash, t, now);
            Ok(r, cfg.cap) && forall h, u | Caches(r, CacheKey(other, h), u) :: Caches(l1, CacheKey(other, h), u) || (id == other && u == t)
  {
    PutTenantOk(cfg, l1, id, hash, t, now);
    forall h ensures CacheKey(other, h) != CacheKey(BY_KEY, hash) && (CacheKey(other, h) == CacheKey(id, hash) ==> other == id) {
      CacheKeyInjective(other, h, BY_KEY, hash);
      CacheKeyInjective(other, h, id, hash);
    }
  }

  /** A reinstatement is the only operation that puts a tenant back into good standing. */
  predicate Reinstates(op: Op, id: string) {
    op.Reinstate? && op.id == id
  }

  lemma StandingByRow(cfg: TenantConfig, s: State, op: Op, id: string)
    requires id in s.rows && s.rows[id].status != Good && !Reinstates(op, id)
    ensures id in Exec(cfg, s, op).rows && Exec(cfg, s, op).rows[id].status != Good
  {
  }

  lemma WarmApart(cfg: TenantConfig, l1: Items, id: string, t: Tenant, now: Time, other: string)
    requires cfg.cap > 0 && Ok(l1, cfg.cap) && PlainId(id) && PlainId(other)
    ensures var r := WarmRow(cfg, l1, id, t, now);
            Ok(r, cfg.cap) && forall h, u | Caches(r, CacheKey(other, h), u) :: Caches(l1, CacheKey(other, h), u) || (id == other && u == t)
  {
    PutApart(cfg, l1, id, t.apiKey, t, now, other);
    PutApart(cfg, PutTenant(cfg, l1, id, t.apiKey, t, now), id, t.oldKey, t, now, other);
  }

  /** Where nothing is put, only what was there is there. */
  lemma OnlyDrops(cfg: TenantConfig, s: State, op: Op)
    requires cfg.cap > 0 && Ok(s.l1, cfg.cap) && !op.Create? && !op.UpdateProfile? && !op.Warm?
    ensures Ok(Exec(cfg, s, op).l1, cfg.cap) && forall c, u | Caches(Exec(cfg, s, op).l1, c, u) :: Caches(s.l1, c, u)
  {
    if op.Get? {
      AuthenticateOk(cfg, s.l1, op.id, op.hash, op.remoteHit, op.now);
    } else if op.GetByKey? {
      AuthenticateByKeyOk(cfg, s.l1, op.hash, op.remoteHit, op.now);
    } else if op.Cleanup? {
      DropExpiredOk(s.l1, op.limit, op.now);
    } else if op.Lose? {
      RemoveOk(s.l1, cfg.cap, op.ck);
    } else {
      RemovePrefixOk(s.l1, cfg.cap, TenantPrefix(op.id));
      if op.Suspend? && Suspends(s, op) {
        var key := s.rows[op.id].apiKey;
        RemoveOk(DropAll(s.l1, op.id), cfg.cap, CacheKey(op.id, key));
        RemoveOk(Remove(DropAll(s.l1, op.id), CacheKey(op.id, key)), cfg.cap, CacheKey(BY_KEY, key));
      }
    }
  }

  lemma StepKeepsOut(cfg: TenantConfig, s: State, op: Op, id: string)
    requires cfg.cap > 0 && Ok(s.l1, cfg.cap) && OutOfStanding(s, id) && PlainId(id) && Plain(op) && !Reinstates(op, id)
    ensures Ok(Exec(cfg, s, op).l1, cfg.cap) && OutOfStanding(Exec(cfg, s, op), id)
  {
    StandingByRow(cfg, s, op, id);
    if op.Create? {
      PutApart(cfg, s.l1, op.id, op.hash, NewTenant(op), op.now, id);
    } else if op.UpdateProfile? {
      if op.id in s.rows {
        var t := s.rows[op.id].(profile := op.profile);
        PutApart(cfg, s.l1, op.id, t.apiKey, t, op.now, id);
      }
    } else if op.Warm? {
      if op.id in s.rows {
        WarmApart(cfg, s.l1, op.id, s.rows[op.id], op.now, id);
      }
    } else {
      OnlyDrops(cfg, s, op);
    }
  }

  /** A deletion that is done, or a suspension that is done and reached the cache. */
  predicate TakesOut(s: State, op: Op) {
    Suspends(s, op) && (op.Suspend? ==> op.againOk)
  }

  lemma TakenOut(cfg: TenantConfig, s: State, op: Op)
    requires cfg.cap > 0 && Ok(s.l1, cfg.cap) && Plain(op) && TakesOut(s, op)
    ensures Ok(Exec(cfg, s, op).l1, cfg.cap) && OutOfStanding(Exec(cfg, s, op), op.id)
  {
    OnlyDrops(cfg, s, op);
    RemovePrefixOk(s.l1, cfg.cap, TenantPrefix(op.id));
    forall hash ensures HasPrefix(CacheKey(op.id, hash), TenantPrefix(op.id)) {
      CacheKeyInjective(op.id, hash, op.id, hash);
    }
    var l1 := Exec(cfg, s, op).l1;
    if op.Suspend? {
      var key := s.rows[op.id].apiKey;
      RemoveOk(DropAll(s.l1, op.id), cfg.cap, CacheKey(op.id, key));
      RemoveOk(Remove(DropAll(s.l1, op.id), CacheKey(op.id, key)), cfg.cap, CacheKey(BY_KEY, key));
    }
    assert forall hash, t :: !Caches(l1, CacheKey(op.id, hash), t);
  }

  /** A suspension takes hold in the cache exactly when its second look-up works or there was nothing to drop. */
  lemma SuspendTakesHoldIff(cfg: TenantConfig, s: State, op: Op)
    requires Sound(cfg, s) && op.Suspend? && Suspends(s, op)
    ensures Agree(Exec(cfg, s, op)) <==>
              || op.againOk || s.rows[op.id].status == Suspended
              || !(exists hash, t :: Caches(s.l1, CacheKey(op.id, hash), t))
  {
    var s' := Exec(cfg, s, op);
    if op.againOk {
      SuspendSound(cfg, s, op);
    } else if hash, t :| Caches(s.l1, CacheKey(op.id, hash), t) {
      assert Essence(t).status == Essence(s.rows[op.id]).status;
      if s.rows[op.id].status != Suspended {
        assert Caches(s'.l1, CacheKey(op.id, hash), t) && Essence(s'.rows[op.id]).status == Suspended;
      } else {
        assert s'.rows[op.id] == s.rows[op.id];
        assert s'.rows == s.rows;
      }
    }
  }

  /** Until it expires, a tenant just created authenticates with its key. */
  lemma CreatedAuthenticates(cfg: TenantConfig, s: State, op: Op, remoteHit: bool, later: Time)
    requires cfg.cap >= 2 && Ok(s.l1, cfg.cap) && Registers(s, op) && PlainId(op.id)
    requires cfg.ttl <= 0 || later <= op.now + cfg.ttl
    ensures Authenticate(cfg, Exec(cfg, s, op).l1, op.id, op.hash, remoteHit, later).1 == Some(NewTenant(op))
  {
    PutIsRead(cfg, s.l1, op.id, op.hash, NewTenant(op), op.now, later);
  }

  lemma PutIsRead(cfg: TenantConfig, l1: Items, id: string, hash: string, t: Tenant, now: Time, later: Time)
    requires cfg.cap >= 2 && Ok(l1, cfg.cap) && PlainId(id) && (cfg.ttl <= 0 || later <= now + cfg.ttl)
    ensures var e := Read(PutTenant(cfg, l1, id, hash, t, now), CacheKey(id, hash), later).1; e.Some? && e.value.payload == Some(t)
  {
    var ck, bk := CacheKey(id, hash), CacheKey(BY_KEY, hash);
    assert ck != bk by { CacheKeyInjective(id, hash, BY_KEY, hash); }
    PutTenantOk(cfg, l1, id, hash, t, now);
    WriteIsNewest(l1, cfg.cap, ck, Some(t), cfg.ttl, now);
    WriteKeepsNewest(Write(l1, cfg.cap, ck, Some(t), cfg.ttl, now), cfg.cap, bk, Some(t), cfg.ttl, now);
    LookupInDistinct(PutTenant(cfg, l1, id, hash, t, now), Item(ck, Entry(Some(t), Expiry(cfg.ttl, now))));
  }

  /** After a warm-up with room for four entries the row answers for each key it accepts, until its entries expire. */
  lemma WarmedAuthenticates(cfg: TenantConfig, s: State, op: Op, hash: string, remoteHit: bool, later: Time)
    requires cfg.cap >= 4 && Ok(s.l1, cfg.cap) && op.Warm? && op.id in s.rows && PlainId(op.id) && (cfg.ttl <= 0 || later <= op.now + cfg.ttl)
    requires hash != "" && s.rows[op.id].Accepts(hash, later)
    ensures Authenticate(cfg, Exec(cfg, s, op).l1, op.id, hash, remoteHit, later).1 == Some(s.rows[op.id])
  {
    var l1 := Exec(cfg, s, op).l1;
    assert l1 == WarmRow(cfg, s.l1, op.id, s.rows[op.id], op.now);
    WarmIsRead(cfg, s.l1, op.id, s.rows[op.id], hash, op.now, later);
    LiveIsAnswered(cfg, l1, op.id, hash, s.rows[op.id], remoteHit, later);
  }

  lemma LiveIsAnswered(cfg: TenantConfig, l1: Items, id: string, hash: string, t: Tenant, remoteHit: bool, now: Time)
    requires t.Accepts(hash, now) && Read(l1, CacheKey(id, hash), now).1.Some? && Read(l1, CacheKey(id, hash), now).1.value.payload == Some(t)
    ensures Authenticate(cfg, l1, id, hash, remoteHit, now).1 == Some(t)
  {
  }

  lemma WarmIsRead(cfg: TenantConfig, l1: Items, id: string, t: Tenant, hash: string, now: Time, later: Time)
    requires cfg.cap >= 4 && Ok(l1, cfg.cap) && PlainId(id) && (cfg.ttl <= 0 || later <= now + cfg.ttl)
    requires hash == t.apiKey || (hash == t.oldKey && hash != "")
    ensures var e := Read(WarmRow(cfg, l1, id, t, now), CacheKey(id, hash), later).1; e.Some? && e.value.payload == Some(t)
  {
    var first := PutTenant(cfg, l1, id, t.apiKey, t, now);
    PutTenantOk(cfg, l1, id, t.apiKey, t, now);
    if hash == t.oldKey && hash != "" {
      PutIsRead(cfg, first, id, hash, t, now, later);
    } else if t.oldKey == "" {
      PutIsRead(cfg, l1, id, hash, t, now, later);
    } else {
      PutTenantOk(cfg, first, id, t.oldKey, t, now);
      PutKeepsRecent(cfg, l1, id, hash, t.oldKey, t, now);
      LookupInDistinct(WarmRow(cfg, l1, id, t, now), Item(CacheKey(id, hash), Entry(Some(t), Expiry(cfg.ttl, now))));
    }
  }

  lemma PutKeepsRecent(cfg: TenantConfig, l1: Items, id: string, hash: string, other: string, t: Tenant, now: Time)
    requires cfg.cap >= 4 && PlainId(id) && hash != other
    ensures Recent(PutTenant(cfg, PutTenant(cfg, l1, id, hash, t, now), id, other, t, now), Item(CacheKey(id, hash), Entry(Some(t), Expiry(cfg.ttl, now))), 4)
  {
    var it := Item(CacheKey(id, hash), Entry(Some(t), Expiry(cfg.ttl, now)));
    CacheKeyInjective(id, hash, BY_KEY, hash);
    CacheKeyInjective(id, hash, id, other);
    CacheKeyInjective(id, hash, BY_KEY, other);
    WriteIsNewest(l1, cfg.cap, CacheKey(id, hash), Some(t), cfg.ttl, now);
    var r1 := Write(l1, cfg.cap, CacheKey(id, hash), Some(t), cfg.ttl, now);
    assert Recent(r1, it, 1);
    WriteKeepsRecent(r1, cfg.cap, CacheKey(BY_KEY, hash), Some(t), cfg.ttl, now, it, 1);
    var r2 := Write(r1, cfg.cap, CacheKey(BY_KEY, hash), Some(t), cfg.ttl, now);
    WriteKeepsRecent(r2, cfg.cap, CacheKey(id, other), Some(t), cfg.ttl, now, it, 2);
    var r3 := Write(r2, cfg.cap, CacheKey(id, other), Some(t), cfg.ttl, now);
    WriteKeepsRecent(r3, cfg.cap, CacheKey(BY_KEY, other), Some(t), cfg.ttl, now, it, 3);
  }

  /**
   A run that fails: a tenant is created and suspended, the second look-up fails. The row is suspended, the
   call reported success, and the key still authenticates a tenant in good standing.
   */
  lemma SuspensionMissesTheCache(cfg: TenantConfig, create: Op, remoteHit: bool, later: Time)
    requires cfg.cap >= 2 && create.Create? && PlainId(create.id) && create.rps > 0 && create.burst > 0 && create.dbOk
    requires !create.profile.system && (cfg.ttl <= 0 || later <= create.now + cfg.ttl)
    ensures var suspend := Suspend(create.id, true, false);
            var s1 := Run(cfg, State(map[], []), [create]);
            var s2 := Run(cfg, State(map[], []), [create, suspend]);
            var found := Authenticate(cfg, s2.l1, create.id, create.hash, remoteHit, later).1;
            && Suspends(s1, suspend) && create.id in s2.rows && s2.rows[create.id].IsSuspended()
            && found.Some? && !found.value.IsSuspended()
  {
    var suspend, s0 := Suspend(create.id, true, false), State(map[], []);
    assert [create][..0] == [] && [create, suspend][..1] == [create];
    assert Run(cfg, s0, [create]) == Exec(cfg, s0, create);
    CreatedAuthenticates(cfg, s0, create, remoteHit, later);
  }

  /* ---------- the second level, one entry at a time ---------- */

  lemma StoreTwo(l2: Option<Remote>, p: Place, q: Place, ttl: Time, now: Time)
    ensures Disturb(Disturb(l2, Stores([p], ttl, now)), Stores([q], ttl, now)) == Disturb(l2, Stores([p, q], ttl, now))
  {
    if l2.Some? {
      var e: Entry<License> := Entry(Some(BLANK), Some(now + ttl));
      assert l2.value + (map x | x in [p] :: KeyAt(x) := e) + (map x | x in [q] :: KeyAt(x) := e)
          == l2.value + map x | x in [p, q] :: KeyAt(x) := e;
    }
  }

  lemma ForgetTwo(l2: Option<Remote>, p: Place, q: Place)
    ensures Disturb(Disturb(l2, Forgets([p])), Forgets([q])) == Disturb(l2, Forgets([p, q]))
  {
    if l2.Some? {
      assert l2.value - (set x | x in [p] :: KeyAt(x)) - (set x | x in [q] :: KeyAt(x)) == l2.value - set x | x in [p, q] :: KeyAt(x);
    }
  }

  lemma ForgetMore(l2: Option<Remote>, tenant: string, also: seq<Place>)
    ensures Disturb(Disturb(l2, ForgetsTenant(tenant, [])), Forgets(also)) == Disturb(l2, ForgetsTenant(tenant, also))
  {
  }

  /** A suspension leaves no license of the tenant in the license cache. */
  // No license is answered under a tenant's keys.
  ghost predicate NothingHeld(st: Store, id: string) {
    forall key, lic {:trigger Holds(st, CacheKey(id, key), lic)} :: !Holds(st, CacheKey(id, key), lic)
  }

  lemma NothingHeldAfter(cfg: LicenseStore.Config, st: Store, id: string, e: Elsewhere)
    requires StoreOk(cfg, st) && (e.Nothing? || (e.ForgetsTenant? && e.tenant == id))
    ensures NothingHeld(Disturbed(DropTenant(st, id), e), id)
  {
    DropTenantOk(cfg, st, id);
    DisturbOk(cfg, DropTenant(st, id), e);
    forall key ensures HasPrefix(CacheKey(id, key), TenantPrefix(id)) {
      assert CacheKey(id, key)[..|TenantPrefix(id)|] == TenantPrefix(id);
    }
  }

  lemma NoLicensesLeft(cfg: LicenseStore.Config, st: Store, id: string, places: seq<Place>)
    requires StoreOk(cfg, st)
    ensures NothingHeld(Disturbed(DropTenant(st, id), Nothing), id)
    ensures NothingHeld(Disturbed(DropTenant(st, id), ForgetsTenant(id, places)), id)
  {
    NothingHeldAfter(cfg, st, id, Nothing);
    NothingHeldAfter(cfg, st, id, ForgetsTenant(id, places));
  }

  lemma GetShape(cfg: TenantConfig, s: State, st: Store, id: string, hash: string, hit: bool, now: Time)
    ensures Exec(cfg, s, Op.Get(id, hash, hit, now)) == State(s.rows, Authenticate(cfg, s.l1, id, hash, hit, now).0)
    ensures OnLicenses(cfg, s, Op.Get(id, hash, hit, now), st)
         == if Disowns(s.l1, id, hash, now) then Disturbed(st, Forgets(KeyPlaces(id, hash))) else st
  {
  }

  /* ---------- the service ---------- */

  datatype Outcome = Done | InvalidLimits | DbError | NotFound | SystemProtected

  class TenantService {
    const cfg: TenantConfig
    const cache: L1Cache<Tenant>
    const licenses: LicenseCache // on the same second level
    var rows: Table

    ghost predicate Valid()
      reads this, cache, licenses, licenses.l1, licenses.l2
    {
      cache.Valid() && cache.maxEntries == cfg.cap && licenses.Valid() && (licenses.l1 as object) != cache
    }

    ghost function Now(): State
      reads this, cache
    {
      State(rows, cache.items)
    }

    constructor (cfg: TenantConfig, cache: L1Cache<Tenant>, licenses: LicenseCache)
      requires cache.Valid() && cache.maxEntries == cfg.cap && licenses.Valid() && (licenses.l1 as object) != cache
      ensures Valid() && this.cfg == cfg && this.cache == cache && this.licenses == licenses
      ensures Now() == State(map[], old(cache.items)) && licenses.State() == old(licenses.State())
    {
      this.cfg := cfg;
      this.cache := cache;
      this.licenses := licenses;
      rows := map[];
    }

    /** Rows, tenant cache and license cache after an operation. */
    twostate predicate Makes(op: Op)
      reads this, cache, licenses, licenses.l1, licenses.l2
    {
      Now() == Exec(cfg, old(Now()), op) && licenses.State() == OnLicenses(cfg, old(Now()), op, old(licenses.State()))
    }

    method Set(id: string, hash: string, t: Tenant, now: Time)
      requires Valid()
      modifies cache, licenses.l2
      ensures Valid() && cache.items == PutTenant(cfg, old(cache.items), id, hash, t, now)
      ensures licenses.State() == Disturbed(old(licenses.State()), Stores(KeyPlaces(id, hash), cfg.ttl, now))
    {
      DisturbOk(licenses.cfg, licenses.State(), Stores(KeyPlaces(id, hash), cfg.ttl, now));
      cache.Set(CacheKey(id, hash), Some(t), cfg.ttl, now);
      cache.Set(CacheKey(BY_KEY, hash), Some(t), cfg.ttl, now);
      ghost var before := DataOf(licenses.l2);
      StoreElsewhere(licenses.l2, Place(id, hash), OfTenant, cfg.ttl, now);
      StoreElsewhere(licenses.l2, Place(BY_KEY, hash), OfTenant, cfg.ttl, now);
      StoreTwo(before, Place(id, hash), Place(BY_KEY, hash), cfg.ttl, now);
    }

    method Invalidate(id: string, hash: string)
      requires Valid()
      modifies cache, licenses.l2
      ensures Valid() && cache.items == DropTenantKey(old(cache.items), id, hash)
      ensures licenses.State() == Disturbed(old(licenses.State()), Forgets(KeyPlaces(id, hash)))
    {
      DisturbOk(licenses.cfg, licenses.State(), Forgets(KeyPlaces(id, hash)));
      cache.Invalidate(CacheKey(id, hash));
      cache.Invalidate(CacheKey(BY_KEY, hash));
      ghost var before := DataOf(licenses.l2);
      ForgetElsewhere(licenses.l2, Place(id, hash));
      ForgetElsewhere(licenses.l2, Place(BY_KEY, hash));
      ForgetTwo(before, Place(id, hash), Place(BY_KEY, hash));
    }

    method InvalidateByTenantID(id: string)
      requires Valid()
      modifies cache, licenses.l2
      ensures Valid() && cache.items == DropAll(old(cache.items), id)
      ensures licenses.State() == Disturbed(old(licenses.State()), ForgetsTenant(id, []))
    {
      DisturbOk(licenses.cfg, licenses.State(), ForgetsTenant(id, []));
      cache.InvalidateAll(TenantPrefix(id));
      if licenses.l2 != null {
        licenses.l2.InvalidateAll(TenantPrefix(id));
      }
    }

    /** Given agreement it succeeds only for a key the row accepts now, with the row's status. */
    method Get(id: string, hash: string, now: Time) returns (found: Option<Tenant>)
      requires Valid()
      modifies cache, licenses.l2
      ensures var hit := RemoteHit(old(licenses.State()), Place(id, hash), now);
              && Valid() && Makes(Op.Get(id, hash, hit, now))
              && found == Authenticate(cfg, old(cache.items), id, hash, hit, now).1
      ensures found.Some? && Agree(old(Now())) && PlainId(id) ==>
                id in rows && rows[id].Accepts(hash, now) && found.value.status == rows[id].status
    {
      AuthenticateOk(cfg, cache.items, id, hash, RemoteHit(licenses.State(), Place(id, hash), now), now);
      GetShape(cfg, Now(), licenses.State(), id, hash, RemoteHit(licenses.State(), Place(id, hash), now), now);
      var entry := cache.Get(CacheKey(id, hash), now);
      if entry.Some? {
        if entry.value.payload.None? {
          return None;
        }
        var t := entry.value.payload.value;
        if !t.Accepts(hash, now) {
          Invalidate(id, hash);
          return None;
        }
        if Agree(old(Now())) && PlainId(id) {
          CachedIsRow(old(Now()), id, hash, t);
        }
        return Some(t);
      }
      Miss(id, hash, now);
      return None;
    }

    method Miss(id: string, hash: string, now: Time)
      requires Valid()
      modifies cache
      ensures Valid()
      ensures cache.items == if RemoteHit(licenses.State(), Place(id, hash), now) then old(cache.items)
                             else TenantSystem.NoteMiss(cfg, old(cache.items), CacheKey(id, hash), now)
    {
      if licenses.l2 != null {
        var remote := licenses.l2.Get(CacheKey(id, hash), now);
        if remote.Some? {
          return; // a license, never a tenant
        }
      }
      if |cache.items| < cache.maxEntries * 9 / 10 {
        cache.Set(CacheKey(id, hash), None, cfg.ttlNegative, now);
      }
    }

    method CreateTenant(id: string, hash: string, rps: int, burst: int, profile: Profile, dbOk: bool, now: Time)
      returns (out: Outcome)
      requires Valid()
      modifies this, cache, licenses.l2
      ensures Valid() && Makes(Op.Create(id, hash, rps, burst, profile, dbOk, now))
      ensures out == if rps <= 0 || burst <= 0 then InvalidLimits else if !dbOk || id in old(rows) then DbError else Done
      ensures rows == if out == Done then old(rows)[id := Tenant(id, hash, "", None, rps, burst, Good, None, profile)] else old(rows)
    {
      if rps <= 0 || burst <= 0 {
        return InvalidLimits;
      }
      if !dbOk || id in rows {
        return DbError;
      }
      var t := Tenant(id, hash, "", None, rps, burst, Good, None, profile);
      rows := rows[id := t];
      Set(id, hash, t, now);
      return Done;
    }

    method SuspendTenant(id: string, dbOk: bool, againOk: bool) returns (out: Outcome)
      requires Valid()
      modifies this, cache, licenses.l1, licenses.l2
      ensures Valid() && Makes(Op.Suspend(id, dbOk, againOk))
      ensures out == if !dbOk then DbError else if id !in old(rows) then NotFound
                     else if old(rows)[id].profile.system then SystemProtected else Done
      ensures rows == if out == Done then old(rows)[id := old(rows)[id].(status := Suspended)] else old(rows)
      ensures out == Done && againOk && PlainId(id) ==> OutOfStanding(Now(), id)
      ensures out == Done ==> NothingHeld(licenses.State(), id)
    {
      if PlainId(id) && Suspends(Now(), Op.Suspend(id, dbOk, true)) && againOk {
        TakenOut(cfg, Now(), Op.Suspend(id, dbOk, true));
      }
      if !dbOk {
        return DbError;
      }
      if id !in rows {
        return NotFound;
      }
      if rows[id].profile.system {
        return SystemProtected;
      }
      rows := rows[id := rows[id].(status := Suspended)];
      NoLicensesLeft(licenses.cfg, licenses.State(), id, KeyPlaces(id, rows[id].apiKey));
      licenses.InvalidateTenant(id);
      if againOk {
        ghost var dropped := DataOf(licenses.l2);
        InvalidateByTenantID(id);
        Invalidate(id, rows[id].apiKey);
        ForgetMore(dropped, id, KeyPlaces(id, rows[id].apiKey));
      }
      return Done;
    }

    method ReinstateTenant(id: string, dbOk: bool) returns (out: Outcome)
      requires Valid()
      modifies this, cache, licenses.l2
      ensures Valid() && Makes(Op.Reinstate(id, dbOk))
      ensures out == if dbOk then Done else DbError
      ensures rows == if dbOk && id in old(rows) then old(rows)[id := old(rows)[id].(status := Good)] else old(rows)
      ensures out == Done && id in rows ==> !rows[id].IsSuspended()
    {
      if !dbOk {
        return DbError;
      }
      if id in rows {
        rows := rows[id := rows[id].(status := Good)];
      }
      InvalidateByTenantID(id);
      return Done;
    }

    method DeleteTenant(id: string, dbOk: bool) returns (out: Outcome)
      requires Valid()
      modifies this, cache, licenses.l2
      ensures Valid() && Makes(Op.Delete(id, dbOk))
      ensures out == if !dbOk then DbError else if id !in old(rows) then NotFound
                     else if old(rows)[id].profile.system then SystemProtected else Done
      ensures rows == if out == Done then old(rows)[id := old(rows)[id].(status := Deleted)] else old(rows)
      ensures out == Done ==> rows[id].IsSuspended() && (PlainId(id) ==> OutOfStanding(Now(), id))
    {
      if PlainId(id) && Suspends(Now(), Op.Delete(id, dbOk)) {
        TakenOut(cfg, Now(), Op.Delete(id, dbOk));
      }
      if !dbOk {
        return DbError;
      }
      if id !in rows {
        return NotFound;
      }
      if rows[id].profile.system {
        return SystemProtected;
      }
      rows := rows[id := rows[id].(status := Deleted)];
      InvalidateByTenantID(id);
      return Done;
    }

    method RotateTenantAPIKey(id: string, hash: string, grace: Time, dbOk: bool, now: Time) returns (out: Outcome)
      requires Valid()
      modifies this, cache, licenses.l2
      ensures Valid() && Makes(Op.Rotate(id, hash, grace, dbOk, now))
      ensures out == if dbOk then Done else DbError
      ensures out == Done && id in rows ==> rows[id].Accepts(hash, now) && rows[id].oldKey == old(rows)[id].apiKey
      ensures rows == if dbOk && id in old(rows)
                      then old(rows)[id := old(rows)[id].(oldKey := old(rows)[id].apiKey, oldUntil := Some(now + WholeSeconds(grace)), apiKey := hash)]
                      else old(rows)
    {
      if !dbOk {
        return DbError;
      }
      if id in rows {
        rows := rows[id := rows[id].(oldKey := rows[id].apiKey, oldUntil := Some(now + WholeSeconds(grace)), apiKey := hash)];
      }
      InvalidateByTenantID(id);
      return Done;
    }

    method UpdateTenantProfile(id: string, profile: Profile, dbOk: bool, findOk: bool, now: Time) returns (out: Outcome)
      requires Valid()
      modifies this, cache, licenses.l2
      ensures Valid() && Makes(Op.UpdateProfile(id, profile, dbOk, findOk, now))
      ensures out == if dbOk then Done else DbError
      ensures rows == if dbOk && id in old(rows) then old(rows)[id := old(rows)[id].(profile := profile)] else old(rows)
    {
      if !dbOk {
        return DbError;
      }
      if id in rows {
        rows := rows[id := rows[id].(profile := profile)];
        if findOk {
          Set(id, rows[id].apiKey, rows[id], now);
        }
      }
      return Done;
    }

    method UpdateTenantLimits(id: string, rps: int, burst: int, dbOk: bool) returns (out: Outcome)
      requires Valid()
      modifies this, cache, licenses.l2
      ensures Valid() && Makes(Op.UpdateLimits(id, rps, burst, dbOk))
      ensures out == if rps <= 0 || burst <= 0 then InvalidLimits else if dbOk then Done else DbError
      ensures rows == if out == Done && id in old(rows) then old(rows)[id := old(rows)[id].(rps := rps, burst := burst)] else old(rows)
    {
      if rps <= 0 || burst <= 0 {
        return InvalidLimits;
      }
      if !dbOk {
        return DbError;
      }
      if id in rows {
        rows := rows[id := rows[id].(rps := rps, burst := burst)];
      }
      InvalidateByTenantID(id);
      return Done;
    }

    method UpdateTenantIPAllowlist(id: string, allowlist: Option<seq<string>>, dbOk: bool) returns (out: Outcome)
      requires Valid()
      modifies this, cache, licenses.l2
      ensures Valid() && Makes(Op.UpdateAllowlist(id, allowlist, dbOk))
      ensures out == if dbOk then Done else DbError
      ensures rows == if dbOk && id in old(rows) then old(rows)[id := old(rows)[id].(allowlist := allowlist)] else old(rows)
    {
      if !dbOk {
        return DbError;
      }
      if id in rows {
        rows := rows[id := rows[id].(allowlist := allowlist)];
      }
      InvalidateByTenantID(id);
      return Done;
    }
  }
}
