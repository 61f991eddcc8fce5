/** What a revocation achieves over whole serial runs, and exactly when no later validation says valid. */
module LicenseRevocation {
  import opened Common
  import opened Domain
  import opened Lru
  import opened LicenseStore
  import opened LicenseSystem
  import opened LicenseCoherence
  import opened LicenseFreshness
  import opened Validity
  import Plans = PlanSystem
  import Runs = LicenseStoreRuns

  /* ---------- what is cached under a withdrawn license ---------- */

  /** Every license cached at this place is of this sort. */
  ghost predicate AllAt(store: Store, ck: string, p: License -> bool) {
    forall v {:trigger Holds(store, ck, v)} :: Holds(store, ck, v) ==> p(v)
  }

  /** The row is another tenant's or of this sort. */
  ghost predicate RowAs(rows: Table, t: string, k: string, p: License -> bool) {
    k in rows && (rows[k].tenant == t ==> p(rows[k]))
  }

  /** The tenant has no claim to the key: the row is another's, or revoked. */
  predicate Withdrawn(rows: Table, t: string, k: string) {
    k in rows && (rows[k].tenant == t ==> rows[k].status == Revoked)
  }

  /** The license as it was or revoked. */
  predicate Same(v: License, row: License) {
    v == row || v == row.(status := Revoked)
  }

  /** Without an update naming the key, what is written under it goes to the owner of the row and is the row, revoked or not. */
  lemma WritesFollowRow(cfg: LicenseSystem.Config, s: Sys, op: Op, k: string)
    requires Possible(s, op) && k in s.rows && (op.UpdateLicense? ==> op.l.key != k)
    ensures var row, rows := s.rows[k], RowsAfter(s, op);
            && k in rows && Same(rows[k], row)
            && forall w | w in Writes(cfg, s, op) && w.key == k :: w.tenant == row.tenant && Same(w.lic, row)
  {
    if op.WarmUp? {
      WarmWritesRows(cfg.store, s.store, s.rows, op.recent, op.now);
    }
  }

  lemma WritesArePlain(cfg: LicenseSystem.Config, s: Sys, op: Op)
    requires SysOk(cfg, s) && Possible(s, op)
    ensures forall w | w in Writes(cfg, s, op) :: ColonFree(w.tenant)
    ensures forall f | f in Intrusions(cfg, s, op) :: ColonFree(f.tenant)
  {
    WritesUnder(cfg, s, op, "");
    IntrusionsAreNamed(cfg, s, op);
  }

  /** Other caches reach a place of the tenant only by name, and never the index by key. */
  lemma CoveredPlaces(fs: seq<Place>, t: string, k: string)
    requires ColonFree(t) && forall f | f in fs :: ColonFree(f.tenant)
    ensures Covers(fs, CacheKey(t, k)) ==> Place(t, k) in fs
    ensures !Covers(fs, GlobalKey(k))
  {
    forall f | f in fs ensures (CacheKey(t, k) == KeyAt(f) ==> f == Place(t, k)) && GlobalKey(k) != KeyAt(f) {
      CacheKeyInjective(t, k, f.tenant, f.key);
      NotGlobal(f.tenant, f.key, k);
    }
  }

  /** The sort survives a revocation, and includes the blank license if another cache may leave it there. */
  ghost predicate Admits(p: License -> bool, blank: bool) {
    (forall v: License | p(v) :: p(v.(status := Revoked))) && (blank ==> p(BLANK))
  }

  /** A place keeps its sort when whatever is written there, or left there by another cache, is of it. */
  lemma PlaceKeepsAll(store: Store, store': Store, ws: seq<CacheWrite>, fs: seq<Place>, ck: string, p: License -> bool)
    requires Explained(store, store', ws, fs) && AllAt(store, ck, p)
    requires forall w | w in ws && Touches(w, ck) :: p(w.lic)
    requires Covers(fs, ck) ==> p(BLANK)
    ensures AllAt(store', ck, p)
  {
  }

  /** The row keeps its sort, and so does what is written of it. */
  lemma RowKeepsSort(cfg: LicenseSystem.Config, s: Sys, op: Op, t: string, k: string, p: License -> bool)
    requires Possible(s, op) && (op.UpdateLicense? ==> op.l.key != k) && RowAs(s.rows, t, k, p) && Admits(p, false)
    ensures RowAs(RowsAfter(s, op), t, k, p) && RowsAfter(s, op)[k].tenant == s.rows[k].tenant
    ensures forall w | w in Writes(cfg, s, op) && w.key == k && w.tenant == t :: p(w.lic)
    ensures s.rows[k].tenant == t ==> forall w | w in Writes(cfg, s, op) && w.key == k :: p(w.lic)
  {
    WritesFollowRow(cfg, s, op, k);
  }

  lemma StepKeepsAll(cfg: LicenseSystem.Config, s: Sys, op: Op, t: string, k: string, p: License -> bool)
    requires SysOk(cfg, s) && Possible(s, op) && ColonFree(t) && (op.UpdateLicense? ==> op.l.key != k)
    requires RowAs(s.rows, t, k, p) && AllAt(s.store, CacheKey(t, k), p) && Admits(p, Place(t, k) in Intrusions(cfg, s, op))
    ensures RowAs(RowsAfter(s, op), t, k, p) && AllAt(StoreAfter(cfg, s, op), CacheKey(t, k), p)
  {
    StepExplained(cfg, s, op);
    RowKeepsSort(cfg, s, op, t, k, p);
    WritesArePlain(cfg, s, op);
    CoveredPlaces(Intrusions(cfg, s, op), t, k);
    forall w | w in Writes(cfg, s, op) ensures Touches(w, CacheKey(t, k)) <==> w.tenant == t && w.key == k {
      TouchesKey(w, t, k);
    }
    PlaceKeepsAll(s.store, StoreAfter(cfg, s, op), Writes(cfg, s, op), Intrusions(cfg, s, op), CacheKey(t, k), p);
  }

  lemma StepKeepsIndex(cfg: LicenseSystem.Config, s: Sys, op: Op, k: string, p: License -> bool)
    requires SysOk(cfg, s) && Possible(s, op) && (op.UpdateLicense? ==> op.l.key != k)
    requires k in s.rows && p(s.rows[k]) && AllAt(s.store, GlobalKey(k), p) && Admits(p, false)
    ensures var rows := RowsAfter(s, op); k in rows && p(rows[k]) && AllAt(StoreAfter(cfg, s, op), GlobalKey(k), p)
  {
    StepExplained(cfg, s, op);
    RowKeepsSort(cfg, s, op, s.rows[k].tenant, k, p);
    WritesArePlain(cfg, s, op);
    CoveredPlaces(Intrusions(cfg, s, op), "", k);
    forall w | w in Writes(cfg, s, op) ensures Touches(w, GlobalKey(k)) <==> w.key == k {
      TouchesKey(w, w.tenant, k);
    }
    PlaceKeepsAll(s.store, StoreAfter(cfg, s, op), Writes(cfg, s, op), Intrusions(cfg, s, op), GlobalKey(k), p);
  }

  lemma {:induction false} RunKeepsAll(cfg: LicenseSystem.Config, s: Sys, ops: seq<Op>, t: string, k: string, p: License -> bool)
    requires SysOk(cfg, s) && PossibleRun(cfg, s, ops) && ColonFree(t) && NoUpdateNames(ops, k)
    requires RowAs(s.rows, t, k, p) && AllAt(s.store, CacheKey(t, k), p) && Admits(p, !Secluded(s, ops, k))
    ensures var s' := Run(cfg, s, ops); SysOk(cfg, s') && RowAs(s'.rows, t, k, p) && AllAt(s'.store, CacheKey(t, k), p)
    decreases |ops|
  {
    if ops != [] {
      var n := |ops| - 1;
      PossiblePrefix(cfg, s, ops, n);
      RunKeepsAll(cfg, s, ops[..n], t, k, p);
      if Secluded(s, ops, k) {
        SecludedAt(cfg, s, ops, n, k);
        SecludedIsNotIntruded(cfg, Run(cfg, s, ops[..n]), ops[n], k);
      }
      StepKeepsAll(cfg, Run(cfg, s, ops[..n]), ops[n], t, k, p);
      StepKeepsOk(cfg, Run(cfg, s, ops[..n]), ops[n]);
    }
  }

  lemma {:induction false} RunKeepsIndex(cfg: LicenseSystem.Config, s: Sys, ops: seq<Op>, k: string, p: License -> bool)
    requires SysOk(cfg, s) && PossibleRun(cfg, s, ops) && NoUpdateNames(ops, k) && Admits(p, false)
    requires k in s.rows && p(s.rows[k]) && AllAt(s.store, GlobalKey(k), p)
    ensures var s' := Run(cfg, s, ops);
            SysOk(cfg, s') && k in s'.rows && p(s'.rows[k]) && AllAt(s'.store, GlobalKey(k), p)
    decreases |ops|
  {
    if ops != [] {
      var n := |ops| - 1;
      PossiblePrefix(cfg, s, ops, n);
      RunKeepsIndex(cfg, s, ops[..n], k, p);
      StepKeepsIndex(cfg, Run(cfg, s, ops[..n]), ops[n], k, p);
      StepKeepsOk(cfg, Run(cfg, s, ops[..n]), ops[n]);
    }
  }

  /* ---------- revocation is sticky ---------- */

  /** Nothing is cached for this tenant under this key. */
  ghost predicate Absent(s: Sys, t: string, k: string) {
    forall v {:trigger Holds(s.store, CacheKey(t, k), v)} :: !Holds(s.store, CacheKey(t, k), v)
  }

  predicate RevokedOne(v: License) {
    v.status == Revoked
  }

  lemma CoherentHasNoStrangers(s: Sys, t: string, k: string)
    requires CoherentAt(s, k) && ColonFree(t) && FindByKey(s.rows, t, k).None?
    ensures Absent(s, t, k)
  {
  }

  /** After the revocation the owner's place and the index hold the revoked row, and another tenant's still nothing. */
  lemma Revoking(cfg: LicenseSystem.Config, s: Sys, revoke: Op, t: string)
    requires SysOk(cfg, s) && Possible(s, revoke) && Revokes(s, revoke) && ColonFree(t)
    requires t == revoke.tenant || Absent(s, t, revoke.key)
    ensures var s', k, p := Exec(cfg, s, revoke), revoke.key, RevokedOne;
            && Withdrawn(s'.rows, t, k) && s'.rows[k].status == Revoked
            && AllAt(s'.store, CacheKey(t, k), p) && AllAt(s'.store, GlobalKey(k), p)
  {
    var k, store' := revoke.key, StoreAfter(cfg, s, revoke);
    var w := CacheWrite(revoke.tenant, k, s.rows[k].(status := Revoked));
    assert Explained(s.store, store', [w], []) by {
      PutExplained(cfg.store, s.store, revoke.tenant, k, w.lic, revoke.now);
    }
    TouchesKey(w, t, k);
    WrittenOnly(s.store, store', w, CacheKey(t, k));
    WrittenOnly(s.store, store', w, GlobalKey(k));
  }

  lemma WrittenOnly(store: Store, store': Store, w: CacheWrite, ck: string)
    requires Explained(store, store', [w], []) && w.lic.status == Revoked
    requires Touches(w, ck) || forall v :: !Holds(store, ck, v)
    ensures AllAt(store', ck, RevokedOne)
  {
    assert w in [w];
  }

  predicate RevokedOrBlank(v: License) {
    v.status == Revoked || v == BLANK
  }

  lemma SpentIsRefused(v: License, product: string, now: Time)
    requires RevokedOrBlank(v)
    ensures !MayActivate(v, now)
    ensures v.status == Revoked ==> !Judge(v, product, now).Valid? && !JudgeInline(v, product, now).Valid?
  {
  }

  /**
   Once a revocation has returned without error, until an update names the key and for any mix of operations:
   no activation passes the service's check, no validation by key alone says valid, and none for a tenant does
   unless another cache can name the key, and then only on the blank license that cache's entry reads back as.
   For a tenant other than the owner this needs that nothing was cached for it under the key, which coherence
   gives.
   */
  lemma RevocationIsSticky(cfg: LicenseSystem.Config, s: Sys, revoke: Op, ops: seq<Op>, t: string, product: string, now: Time, dbOk: bool)
    requires SysOk(cfg, s) && Possible(s, revoke) && Revokes(s, revoke) && ColonFree(t)
    requires t == revoke.tenant || Absent(s, t, revoke.key)
    requires PossibleRun(cfg, Exec(cfg, s, revoke), ops) && NoUpdateNames(ops, revoke.key)
    ensures var s1 := Exec(cfg, s, revoke);
            var s' := Run(cfg, s1, ops);
            var scoped := Fetch(cfg.store, s'.store, t, revoke.key, now).1;
            var global := FetchGlobal(cfg.store, s'.store, revoke.key, now).1;
            var resolved := ResolveLicense(cfg, s', t, revoke.key, dbOk, now).1;
            && (scoped.Some? && Judge(scoped.value, product, now).Valid? ==> scoped.value == BLANK && !Secluded(s1, ops, revoke.key))
            && (global.Some? ==> !JudgeInline(global.value, product, now).Valid?)
            && (resolved.Some? ==> !MayActivate(resolved.value, now))
  {
    var s1, k := Exec(cfg, s, revoke), revoke.key;
    var s' := Run(cfg, s1, ops);
    StepKeepsOk(cfg, s, revoke);
    Revoking(cfg, s, revoke, t);
    RunKeepsAll(cfg, s1, ops, t, k, RevokedOrBlank);
    RunKeepsIndex(cfg, s1, ops, k, RevokedOne);
    if Secluded(s1, ops, k) {
      RunKeepsAll(cfg, s1, ops, t, k, RevokedOne);
    }
    Refused(cfg, s', t, k, product, now, dbOk);
  }

  lemma Refused(cfg: LicenseSystem.Config, s: Sys, t: string, k: string, product: string, now: Time, dbOk: bool)
    requires SysOk(cfg, s) && k in s.rows && s.rows[k].status == Revoked
    requires AllAt(s.store, CacheKey(t, k), RevokedOrBlank) && AllAt(s.store, GlobalKey(k), RevokedOne)
    ensures var scoped := Fetch(cfg.store, s.store, t, k, now).1;
            var global := FetchGlobal(cfg.store, s.store, k, now).1;
            var resolved := ResolveLicense(cfg, s, t, k, dbOk, now).1;
            && (scoped.Some? ==> Holds(s.store, CacheKey(t, k), scoped.value))
            && (scoped.Some? && Judge(scoped.value, product, now).Valid? ==> scoped.value == BLANK)
            && (global.Some? ==> !JudgeInline(global.value, product, now).Valid?)
            && (resolved.Some? ==> !MayActivate(resolved.value, now))
  {
    FetchOk(cfg.store, s.store, t, k, now);
    FetchGlobalOk(cfg.store, s.store, k, now);
    SpentIsRefused(s.rows[k], product, now);
    var scoped, global := Fetch(cfg.store, s.store, t, k, now).1, FetchGlobal(cfg.store, s.store, k, now).1;
    if scoped.Some? {
      SpentIsRefused(scoped.value, product, now);
    }
    if global.Some? {
      SpentIsRefused(global.value, product, now);
    }
  }

  /* ---------- exactly when no later validation says valid ---------- */

  /** Revoked, or over before it begins: never valid, at no instant and for no product. */
  predicate Spent(v: License) {
    v.IsRevoked() || (OpensAt(v).Some? && ClosesAt(v).Some? && ClosesAt(v).value < OpensAt(v).value)
  }

  lemma SpentIsNeverValid(v: License, product: string, now: Time)
    requires Spent(v)
    ensures !Judge(v, product, now).Valid?
  {
    if !v.IsRevoked() && !WrongProduct(v, product) {
      ValidityIsAnInterval(v, product, now);
    }
  }

  predicate SaysValid(cfg: LicenseSystem.Config, s: Sys, t: string, k: string, product: string, now: Time) {
    var found := Fetch(cfg.store, s.store, t, k, now).1;
    found.Some? && Judge(found.value, product, now).Valid?
  }

  predicate CalmOp(op: Op, k: string) {
    (op.UpdateLicense? ==> op.l.key != k) && !SetsKey(op, k)
  }

  /** A run in which no update names the key and no tenant gets it as a key hash. */
  predicate CalmRun(cfg: LicenseSystem.Config, s: Sys, ops: seq<Op>, k: string) {
    PossibleRun(cfg, s, ops) && forall i | 0 <= i < |ops| :: CalmOp(ops[i], k)
  }

  ghost predicate NeverValid(cfg: LicenseSystem.Config, s: Sys, t: string, k: string) {
    forall ops, product, now :: CalmRun(cfg, s, ops, k) ==> !SaysValid(cfg, Run(cfg, s, ops), t, k, product, now)
  }

  lemma CalmSnoc(cfg: LicenseSystem.Config, s: Sys, ops: seq<Op>, op: Op, k: string)
    requires CalmRun(cfg, s, ops, k) && Possible(Run(cfg, s, ops), op) && CalmOp(op, k)
    ensures CalmRun(cfg, s, ops + [op], k) && Run(cfg, s, ops + [op]) == Exec(cfg, Run(cfg, s, ops), op)
  {
    var all := ops + [op];
    forall i | 0 <= i < |all| ensures all[..i] == ops[..i] && all[i] == if i < |ops| then ops[i] else op {
    }
    assert ops[..|ops|] == ops;
  }

  /** The first level has this license for the tenant, live at least until then. */
  ghost predicate Hot(s: Sys, t: string, k: string, v: License, until: Time) {
    exists it | it in s.store.l1 :: HotItem(it, t, k, v, until)
  }

  predicate HotItem(it: Item<License>, t: string, k: string, v: License, until: Time) {
    it.key == CacheKey(t, k) && it.entry.payload == Some(v) && !IsExpired(it.entry, until)
  }

  lemma HotIsAnswered(cfg: LicenseSystem.Config, s: Sys, t: string, k: string, v: License, until: Time, now: Time)
    requires SysOk(cfg, s) && Hot(s, t, k, v, until) && now <= until
    ensures Fetch(cfg.store, s.store, t, k, now).1 == Some(v)
  {
    var it :| it in s.store.l1 && HotItem(it, t, k, v, until);
    LookupInDistinct(s.store.l1, it);
  }

  /** A look-up just before the entry would expire keeps it for a whole active time to live. */
  lemma HitReheats(cfg: LicenseSystem.Config, s: Sys, t: string, k: string, v: License, until: Time)
    requires SysOk(cfg, s) && Hot(s, t, k, v, until) && cfg.store.ttlActive >= 2
    ensures Hot(Exec(cfg, s, Validate(t, k, until)), t, k, v, until + 1)
  {
    var ck := CacheKey(t, k);
    var it :| it in s.store.l1 && HotItem(it, t, k, v, until);
    LookupInDistinct(s.store.l1, it);
    var l1 := Read(s.store.l1, ck, until).0;
    ReadOk(s.store.l1, cfg.store.cap, ck, until);
    ReadKeepsOthers(s.store.l1, cfg.store.cap, ck, until);
    if NeedsRefresh(it.entry, cfg.store.ttlActive, until) {
      WriteIsNewest(l1, cfg.store.cap, ck, Some(v), cfg.store.ttlActive, until);
      var r := Write(l1, cfg.store.cap, ck, Some(v), cfg.store.ttlActive, until);
      assert HotItem(r[|r| - 1], t, k, v, until + 1) && r[|r| - 1] in r;
    } else {
      assert HotItem(it, t, k, v, until + 1) && it in l1;
    }
  }

  /** So look-ups can keep a license in the first level for as long as one likes. */
  lemma {:induction false} KeptHot(cfg: LicenseSystem.Config, s: Sys, ops: seq<Op>, t: string, k: string, v: License, from: Time, n: nat)
      returns (more: seq<Op>)
    requires SysOk(cfg, s) && CalmRun(cfg, s, ops, k) && ColonFree(t) && cfg.store.ttlActive >= 2
    requires Hot(Run(cfg, s, ops), t, k, v, from)
    ensures CalmRun(cfg, s, more, k) && Hot(Run(cfg, s, more), t, k, v, from + n)
  {
    if n == 0 {
      more := ops;
    } else {
      var first := KeptHot(cfg, s, ops, t, k, v, from, n - 1);
      more := HotLonger(cfg, s, first, t, k, v, from + n - 1);
    }
  }

  lemma HotLonger(cfg: LicenseSystem.Config, s: Sys, ops: seq<Op>, t: string, k: string, v: License, until: Time) returns (more: seq<Op>)
    requires SysOk(cfg, s) && CalmRun(cfg, s, ops, k) && ColonFree(t) && cfg.store.ttlActive >= 2
    requires Hot(Run(cfg, s, ops), t, k, v, until)
    ensures CalmRun(cfg, s, more, k) && Hot(Run(cfg, s, more), t, k, v, until + 1)
  {
    LooksOnce(cfg, s, ops, t, k, until);
    HitReheats(cfg, Run(cfg, s, ops), t, k, v, until);
    more := ops + [Validate(t, k, until)];
  }

  lemma LooksOnce(cfg: LicenseSystem.Config, s: Sys, ops: seq<Op>, t: string, k: string, now: Time)
    requires SysOk(cfg, s) && CalmRun(cfg, s, ops, k) && ColonFree(t)
    ensures SysOk(cfg, Run(cfg, s, ops)) && CalmRun(cfg, s, ops + [Validate(t, k, now)], k)
    ensures Run(cfg, s, ops + [Validate(t, k, now)]) == Exec(cfg, Run(cfg, s, ops), Validate(t, k, now))
  {
    RunKeepsOk(cfg, s, ops);
    CalmSnoc(cfg, s, ops, Validate(t, k, now), k);
  }

  lemma LosesLocal(cfg: LicenseSystem.Config, s: Sys, ops: seq<Op>, ck: string, k: string)
    requires CalmRun(cfg, s, ops, k)
    ensures var more, store := ops + [Background(Runs.LoseLocal(ck, 0))], Run(cfg, s, ops).store;
            CalmRun(cfg, s, more, k) && Run(cfg, s, more).store == store.(l1 := Remove(store.l1, ck))
  {
    CalmSnoc(cfg, s, ops, Background(Runs.LoseLocal(ck, 0)), k);
    LossStep(cfg, Run(cfg, s, ops), ck);
  }

  lemma LossStep(cfg: LicenseSystem.Config, s: Sys, ck: string)
    ensures Exec(cfg, s, Background(Runs.LoseLocal(ck, 0))) == s.(store := s.store.(l1 := Remove(s.store.l1, ck)))
  {
  }

  /** The instant at which an entry expires it is still live. */
  function LastInstant(e: Entry<License>): Time {
    if e.expiresAt.Some? then e.expiresAt.value else 0
  }

  lemma EmptyRunIsCalm(cfg: LicenseSystem.Config, s: Sys, k: string)
    ensures CalmRun(cfg, s, [], k) && Run(cfg, s, []) == s
  {
  }

  /** Without its first-level entry a key is answered from the second level, which brings it back. */
  lemma Reloaded(cfg: LicenseSystem.Config, s: Sys, ops: seq<Op>, t: string, k: string, v: License) returns (more: seq<Op>, until: Time)
    requires SysOk(cfg, s) && CalmRun(cfg, s, ops, k) && ColonFree(t)
    requires var l2 := Run(cfg, s, ops).store.l2; l2.Some? && CacheKey(t, k) in l2.value && l2.value[CacheKey(t, k)].payload == Some(v)
    ensures CalmRun(cfg, s, more, k) && Hot(Run(cfg, s, more), t, k, v, until)
  {
    var ck := CacheKey(t, k);
    var lost := ops + [Background(Runs.LoseLocal(ck, 0))];
    LosesLocal(cfg, s, ops, ck, k);
    var e := Run(cfg, s, ops).store.l2.value[ck];
    until := LastInstant(e);
    LooksOnce(cfg, s, lost, t, k, until);
    Backfilled(cfg, Run(cfg, s, lost), t, k, v, e);
    more := lost + [Validate(t, k, until)];
  }

  lemma Backfilled(cfg: LicenseSystem.Config, s: Sys, t: string, k: string, v: License, e: Entry<License>)
    requires SysOk(cfg, s) && (forall it | it in s.store.l1 :: it.key != CacheKey(t, k))
    requires var l2 := s.store.l2; l2.Some? && CacheKey(t, k) in l2.value && l2.value[CacheKey(t, k)] == e && e.payload == Some(v)
    ensures Hot(Exec(cfg, s, Validate(t, k, LastInstant(e))), t, k, v, LastInstant(e))
  {
    var ck, now, l1 := CacheKey(t, k), LastInstant(e), s.store.l1;
    var r := Write(l1, cfg.store.cap, ck, Some(v), cfg.store.ttlL1, now);
    WriteIsNewest(l1, cfg.store.cap, ck, Some(v), cfg.store.ttlL1, now);
    assert StoreAfter(cfg, s, Validate(t, k, now)).l1 == r;
    assert HotItem(r[|r| - 1], t, k, v, now) && r[|r| - 1] in r;
  }

  /** Some instant from which on, or up to which, a license that is not spent is valid. */
  function GoodInstant(v: License, near: Time): Time {
    if ClosesAt(v).Some? && ClosesAt(v).value < near then ClosesAt(v).value
    else if OpensAt(v).Some? && near < OpensAt(v).value then OpensAt(v).value
    else near
  }

  /** Whatever is hot and not spent is found valid in some run. */
  lemma HotIsValidOnce(cfg: LicenseSystem.Config, s: Sys, ops: seq<Op>, t: string, k: string, v: License, until: Time)
      returns (more: seq<Op>, now: Time)
    requires SysOk(cfg, s) && CalmRun(cfg, s, ops, k) && ColonFree(t) && cfg.store.ttlActive >= 2
    requires Hot(Run(cfg, s, ops), t, k, v, until) && !Spent(v)
    ensures CalmRun(cfg, s, more, k) && SaysValid(cfg, Run(cfg, s, more), t, k, "", now)
  {
    now := GoodInstant(v, until);
    more := KeptHot(cfg, s, ops, t, k, v, until, if until < now then now - until else 0);
    RunKeepsOk(cfg, s, more);
    HotIsAnswered(cfg, Run(cfg, s, more), t, k, v, until + (if until < now then now - until else 0), now);
    ValidityIsAnInterval(v, "", now);
  }

  lemma HeldIsValidOnce(cfg: LicenseSystem.Config, s: Sys, ops: seq<Op>, t: string, k: string, v: License)
      returns (more: seq<Op>, now: Time)
    requires SysOk(cfg, s) && CalmRun(cfg, s, ops, k) && ColonFree(t) && cfg.store.ttlActive >= 2
    requires Holds(Run(cfg, s, ops).store, CacheKey(t, k), v) && !Spent(v)
    ensures CalmRun(cfg, s, more, k) && SaysValid(cfg, Run(cfg, s, more), t, k, "", now)
  {
    var mid := Run(cfg, s, ops);
    if it :| it in mid.store.l1 && it.key == CacheKey(t, k) && it.entry.payload == Some(v) {
      assert HotItem(it, t, k, v, LastInstant(it.entry));
      more, now := HotIsValidOnce(cfg, s, ops, t, k, v, LastInstant(it.entry));
    } else {
      var reloaded, until := Reloaded(cfg, s, ops, t, k, v);
      more, now := HotIsValidOnce(cfg, s, reloaded, t, k, v, until);
    }
  }

  /** An operation of another cache that stores its entry under a reserved name. */
  function Intruder(t: string, k: string, now: Time): Op
    requires Reserved(k)
  {
    if Named(k, "plan:") then PlanOp(Plans.CreatePlan(Plan(k[5..], t, None, "basic", [], 0, true), "", false, true, now))
    else PutProduct(t, k[8..], now)
  }

  function IntruderTtl(cfg: LicenseSystem.Config, k: string): Time {
    if Named(k, "plan:") then cfg.plans.ttl else cfg.ttlProduct
  }

  lemma IntruderIntrudes(cfg: LicenseSystem.Config, s: Sys, t: string, k: string, now: Time)
    requires ColonFree(t) && t != "" && Reserved(k)
    ensures Possible(s, Intruder(t, k, now)) && CalmOp(Intruder(t, k, now), k)
    ensures RowsAfter(s, Intruder(t, k, now)) == s.rows && TenantsAfter(cfg, s, Intruder(t, k, now)) == s.tenants
    ensures StoreAfter(cfg, s, Intruder(t, k, now)) == Disturbed(s.store, Stores([Place(t, k)], IntruderTtl(cfg, k), now))
  {
    if Named(k, "plan:") {
      assert k == "plan:" + k[5..];
    } else {
      assert k == "product:" + k[8..];
    }
  }

  /**
   For a tenant without a claim to the key, no validation says valid in any later run, until an update names
   the key, if and only if no other cache can name the key and every license cached for the tenant under it is
   spent.
   */
  lemma NeverValidIff(cfg: LicenseSystem.Config, s: Sys, t: string, k: string)
    requires SysOk(cfg, s) && ColonFree(t) && t != "" && k != "" && Withdrawn(s.rows, t, k) && !Keyed(s, k)
    requires cfg.store.ttlActive >= 2
    ensures NeverValid(cfg, s, t, k) <==> (s.store.l2.None? || !Reserved(k)) && AllAt(s.store, CacheKey(t, k), Spent)
  {
    EmptyRunIsCalm(cfg, s, k);
    if s.store.l2.Some? && Reserved(k) {
      var ops, now := IntrudedIsValidOnce(cfg, s, t, k);
    } else if v :| Holds(s.store, CacheKey(t, k), v) && !Spent(v) {
      var ops, now := HeldIsValidOnce(cfg, s, [], t, k, v);
    } else {
      forall ops, product, now | CalmRun(cfg, s, ops, k) ensures !SaysValid(cfg, Run(cfg, s, ops), t, k, product, now) {
        SpentRunIsInvalid(cfg, s, ops, t, k, product, now);
      }
    }
  }

  lemma SpentRunIsInvalid(cfg: LicenseSystem.Config, s: Sys, ops: seq<Op>, t: string, k: string, product: string, now: Time)
    requires SysOk(cfg, s) && ColonFree(t) && k != "" && Withdrawn(s.rows, t, k) && !Keyed(s, k) && CalmRun(cfg, s, ops, k)
    requires (s.store.l2.None? || !Reserved(k)) && AllAt(s.store, CacheKey(t, k), Spent)
    ensures !SaysValid(cfg, Run(cfg, s, ops), t, k, product, now)
  {
    RunKeepsAll(cfg, s, ops, t, k, Spent);
    var s' := Run(cfg, s, ops);
    FetchOk(cfg.store, s'.store, t, k, now);
    var found := Fetch(cfg.store, s'.store, t, k, now).1;
    if found.Some? {
      SpentIsNeverValid(found.value, product, now);
    }
  }

  lemma IntrudedIsValidOnce(cfg: LicenseSystem.Config, s: Sys, t: string, k: string) returns (more: seq<Op>, now: Time)
    requires SysOk(cfg, s) && ColonFree(t) && t != "" && cfg.store.ttlActive >= 2 && s.store.l2.Some? && Reserved(k)
    ensures CalmRun(cfg, s, more, k) && SaysValid(cfg, Run(cfg, s, more), t, k, "", now)
  {
    var op := Intruder(t, k, 0);
    EmptyRunIsCalm(cfg, s, k);
    IntruderIntrudes(cfg, s, t, k, 0);
    CalmSnoc(cfg, s, [], op, k);
    DisturbOk(cfg.store, s.store, Stores([Place(t, k)], IntruderTtl(cfg, k), 0));
    assert Place(t, k) in [Place(t, k)];
    more, now := HeldIsValidOnce(cfg, s, [] + [op], t, k, BLANK);
  }
}
