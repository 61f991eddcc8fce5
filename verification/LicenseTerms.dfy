/** What was saved binds every later validation: its dates, its grace and its product, until an update names the key. */
module LicenseTerms {
  import opened Common
  import opened Domain
  import opened LicenseStore
  import opened LicenseSystem
  import opened LicenseCoherence
  import opened LicenseFreshness
  import opened LicenseRevocation
  import opened Validity

  /** The copy has the dates of the license and, if that is for one product, its product; the grace may be lost. */
  predicate KeepsTerms(l: License, v: License) {
    && v.notBefore == l.notBefore && v.expiresAt == l.expiresAt && (v.graceDays == l.graceDays || v.graceDays == 0)
    && (l.kind == ProductKind ==> v.productId == l.productId)
  }

  function Keeping(l: License): License -> bool {
    v => KeepsTerms(l, v)
  }

  predicate BlankOne(v: License) {
    v == BLANK || v == BLANK.(status := Revoked)
  }

  /** The same, or what another cache's entry reads back as. */
  function KeepingOrBlank(l: License): License -> bool {
    v => KeepsTerms(l, v) || BlankOne(v)
  }

  /** A valid verdict on such a copy lies within the terms. */
  predicate WithinTerms(l: License, product: string, now: Time) {
    && (l.notBefore.Some? ==> l.notBefore.value - 5 * MINUTE <= now)
    && (l.expiresAt.Some? ==> now <= l.expiresAt.value + (if l.graceDays > 0 then l.graceDays * DAY else 0))
    && (l.kind == ProductKind && product != "" ==> l.productId in {None, Some(""), Some(product)})
  }

  lemma TermsBind(l: License, v: License, product: string, now: Time)
    requires KeepsTerms(l, v)
    ensures Judge(v, product, now).Valid? ==> WithinTerms(l, product, now)
    ensures JudgeInline(v, product, now).Valid? ==> WithinTerms(l.(notBefore := None), product, now)
  {
    GraceTimesDay(l.graceDays);
    VerdictIff(v, product, now);
    InlineVerdictIff(v, product, now);
  }

  /** Right after a save, both places and the row keep the terms. */
  lemma SaveBinds(cfg: LicenseSystem.Config, s: Sys, op: Op)
    requires SysOk(cfg, s) && Possible(s, op) && Saves(s, op)
    ensures var s', l := Exec(cfg, s, op), op.l;
            && SysOk(cfg, s') && l.key in s'.rows && s'.rows[l.key].tenant == l.tenant && Keeping(l)(s'.rows[l.key])
            && AllAt(s'.store, CacheKey(l.tenant, l.key), Keeping(l)) && AllAt(s'.store, GlobalKey(l.key), Keeping(l))
  {
    SaveCopies(cfg, s, op);
    SavedKeepsTerms(cfg, s, op);
  }

  lemma SavedKeepsTerms(cfg: LicenseSystem.Config, s: Sys, op: Op)
    requires Saves(s, op)
    ensures KeepsTerms(op.l, SavedCopy(cfg, s, op))
    ensures op.l.key in RowsAfter(s, op) && RowsAfter(s, op)[op.l.key].tenant == op.l.tenant && KeepsTerms(op.l, RowsAfter(s, op)[op.l.key])
  {
  }

  /**
   From a save on, for any mix of operations until an update names the key: a validation of the tenant that
   says valid lies within the saved dates and grace and, for a product license, asks for no other product,
   unless another cache can name the key and it is the blank license that was found. By key alone nothing is
   excepted, but the start does not count there.
   */
  lemma ValidWithinTerms(cfg: LicenseSystem.Config, s: Sys, op: Op, ops: seq<Op>, product: string, now: Time)
    requires SysOk(cfg, s) && Possible(s, op) && Saves(s, op)
    requires PossibleRun(cfg, Exec(cfg, s, op), ops) && NoUpdateNames(ops, op.l.key)
    ensures var s1 := Exec(cfg, s, op);
            var s' := Run(cfg, s1, ops);
            var scoped := Fetch(cfg.store, s'.store, op.l.tenant, op.l.key, now).1;
            var global := FetchGlobal(cfg.store, s'.store, op.l.key, now).1;
            && (scoped.Some? && Judge(scoped.value, product, now).Valid? ==>
                  WithinTerms(op.l, product, now) || (scoped.value == BLANK && !Secluded(s1, ops, op.l.key)))
            && (global.Some? && JudgeInline(global.value, product, now).Valid? ==>
                  WithinTerms(op.l.(notBefore := None), product, now))
  {
    SaveBinds(cfg, s, op);
    var s' := RunBinds(cfg, Exec(cfg, s, op), ops, op.l);
    FoundWithinTerms(cfg, s', op.l, !Secluded(Exec(cfg, s, op), ops, op.l.key), product, now);
  }

  /** What is cached keeps the terms through the run, but for what another cache leaves. */
  lemma RunBinds(cfg: LicenseSystem.Config, s: Sys, ops: seq<Op>, l: License) returns (s': Sys)
    requires SysOk(cfg, s) && PossibleRun(cfg, s, ops) && NoUpdateNames(ops, l.key) && ColonFree(l.tenant)
    requires l.key in s.rows && Keeping(l)(s.rows[l.key])
    requires AllAt(s.store, CacheKey(l.tenant, l.key), Keeping(l)) && AllAt(s.store, GlobalKey(l.key), Keeping(l))
    ensures s' == Run(cfg, s, ops) && SysOk(cfg, s') && AllAt(s'.store, GlobalKey(l.key), Keeping(l))
    ensures AllAt(s'.store, CacheKey(l.tenant, l.key), if Secluded(s, ops, l.key) then Keeping(l) else KeepingOrBlank(l))
  {
    s' := Run(cfg, s, ops);
    RunKeepsIndex(cfg, s, ops, l.key, Keeping(l));
    if Secluded(s, ops, l.key) {
      RunKeepsAll(cfg, s, ops, l.tenant, l.key, Keeping(l));
    } else {
      RunKeepsAll(cfg, s, ops, l.tenant, l.key, KeepingOrBlank(l));
    }
  }

  lemma FoundWithinTerms(cfg: LicenseSystem.Config, s: Sys, l: License, blank: bool, product: string, now: Time)
    requires SysOk(cfg, s) && AllAt(s.store, GlobalKey(l.key), Keeping(l))
    requires AllAt(s.store, CacheKey(l.tenant, l.key), if !blank then Keeping(l) else KeepingOrBlank(l))
    ensures var scoped := Fetch(cfg.store, s.store, l.tenant, l.key, now).1;
            var global := FetchGlobal(cfg.store, s.store, l.key, now).1;
            && (scoped.Some? && Judge(scoped.value, product, now).Valid? ==>
                  WithinTerms(l, product, now) || (scoped.value == BLANK && blank))
            && (global.Some? && JudgeInline(global.value, product, now).Valid? ==> WithinTerms(l.(notBefore := None), product, now))
  {
    FetchOk(cfg.store, s.store, l.tenant, l.key, now);
    FetchGlobalOk(cfg.store, s.store, l.key, now);
    var scoped, global := Fetch(cfg.store, s.store, l.tenant, l.key, now).1, FetchGlobal(cfg.store, s.store, l.key, now).1;
    if scoped.Some? && KeepsTerms(l, scoped.value) {
      TermsBind(l, scoped.value, product, now);
    }
    if global.Some? {
      TermsBind(l, global.value, product, now);
    }
  }

  /** In particular a license created for one product never validates for another. */
  lemma OtherProductsRefused(cfg: LicenseSystem.Config, s: Sys, op: Op, ops: seq<Op>, p: string, product: string, now: Time)
    requires SysOk(cfg, s) && Possible(s, op) && Saves(s, op) && op.l.kind == ProductKind && op.l.productId == Some(p)
    requires PossibleRun(cfg, Exec(cfg, s, op), ops) && NoUpdateNames(ops, op.l.key) && Secluded(Exec(cfg, s, op), ops, op.l.key)
    requires product != "" && product != p
    ensures p != ""
    ensures var s' := Run(cfg, Exec(cfg, s, op), ops);
            var scoped := Fetch(cfg.store, s'.store, op.l.tenant, op.l.key, now).1;
            var global := FetchGlobal(cfg.store, s'.store, op.l.key, now).1;
            && (scoped.Some? ==> !Judge(scoped.value, product, now).Valid?)
            && (global.Some? ==> !JudgeInline(global.value, product, now).Valid?)
  {
    ValidWithinTerms(cfg, s, op, ops, product, now);
  }
}
