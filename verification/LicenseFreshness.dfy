/**
 Which copy of a license the cache answers over whole serial runs: the last one written, by a save, a
 revocation, a refill or a warm-up. From this follow the features a look-up shows.
 */
module LicenseFreshness {
  import opened Common
  import opened Domain
  import opened Lru
  import opened LicenseStore
  import opened Features
  import opened LicenseSystem
  import opened LicenseCoherence
  import Plans = PlanSystem

  /* ---------- the copy in the cache ---------- */

  /** What is written under a key, if anything. */
  function LastWrite(ws: seq<CacheWrite>, k: string): (r: Option<License>)
    ensures r.Some? <==> exists w | w in ws :: w.key == k
    ensures r.Some? ==> exists w | w in ws :: w.key == k && w.lic == r.value
    decreases |ws|
  {
    if ws == [] then None
    else if ws[|ws| - 1].key == k then Some(ws[|ws| - 1].lic)
    else LastWrite(ws[..|ws| - 1], k)
  }

  function WrittenUnder(cfg: LicenseSystem.Config, s: Sys, op: Op, k: string): Option<License> {
    LastWrite(Writes(cfg, s, op), k)
  }

  function NextCopy(cfg: LicenseSystem.Config, s: Sys, op: Op, k: string, copy: License): License {
    var w := WrittenUnder(cfg, s, op, k);
    if w.Some? then w.value else copy
  }

  /** All the cache holds of this key, for its owner and under the key alone, is this copy of the row. */
  ghost predicate Copied(s: Sys, k: string, copy: License) {
    IsCopy(s.rows, k, copy) && OnlyHolds(s.store, CacheKey(s.rows[k].tenant, k), copy) && OnlyHolds(s.store, GlobalKey(k), copy)
  }

  ghost predicate OnlyHolds(store: Store, ck: string, copy: License) {
    forall v {:trigger Holds(store, ck, v)} :: Holds(store, ck, v) ==> v == copy
  }

  /** One operation writes at most one license under a key. */
  lemma OneWritePerKey(cfg: LicenseSystem.Config, s: Sys, op: Op, k: string)
    requires Possible(s, op)
    ensures forall w | w in Writes(cfg, s, op) && w.key == k :: WrittenUnder(cfg, s, op, k) == Some(w.lic)
  {
    if op.WarmUp? {
      WarmWritesRows(cfg.store, s.store, s.rows, op.recent, op.now);
    }
  }

  /** At a place the writes reach or that held this copy before, the copy is all there is. */
  lemma PlaceCopied(store: Store, store': Store, ws: seq<CacheWrite>, fs: seq<Place>, ck: string, copy: License)
    requires Explained(store, store', ws, fs) && !Covers(fs, ck)
    requires forall w | w in ws && Touches(w, ck) :: w.lic == copy
    requires OnlyHolds(store, ck, copy) || exists w | w in ws :: Touches(w, ck)
    ensures OnlyHolds(store', ck, copy)
  {
  }

  lemma StepCopies(cfg: LicenseSystem.Config, s: Sys, op: Op, k: string, copy: License)
    requires SysOk(cfg, s) && Possible(s, op) && !GoesAstray(cfg, s, op, k)
    requires Copied(s, k, copy) || WrittenUnder(cfg, s, op, k).Some?
    ensures Copied(Exec(cfg, s, op), k, NextCopy(cfg, s, op, k, copy))
  {
    var s', next := Exec(cfg, s, op), NextCopy(cfg, s, op, k, copy);
    StepMoves(cfg, s, op, k);
    OneWritePerKey(cfg, s, op, k);
    StepKeepsOk(cfg, s, op);
    CopiesMove(s, s', Writes(cfg, s, op), Intrusions(cfg, s, op), k, copy, next);
  }

  lemma CopiesMove(s: Sys, s': Sys, ws: seq<CacheWrite>, fs: seq<Place>, k: string, copy: License, next: License)
    requires Moves(s.store, s.rows, s'.store, s'.rows, ws, fs, k) && (k in s'.rows ==> RowOk(s'.rows, k))
    requires forall w | w in ws && w.key == k :: w.lic == next
    requires (Copied(s, k, copy) && next == copy && forall w | w in ws :: w.key != k) || exists w | w in ws :: w.key == k
    ensures Copied(s', k, next)
  {
    assert IsCopy(s'.rows, k, next);
    var owner := s'.rows[k].tenant;
    forall w | w in ws
      ensures Touches(w, CacheKey(owner, k)) <==> w.tenant == owner && w.key == k
      ensures Touches(w, GlobalKey(k)) <==> w.key == k
    {
      TouchesKey(w, owner, k);
    }
    NotCovered(fs, owner, k);
    PlaceCopied(s.store, s'.store, ws, fs, CacheKey(owner, k), next);
    PlaceCopied(s.store, s'.store, ws, fs, GlobalKey(k), next);
  }

  function CopyAfter(cfg: LicenseSystem.Config, s: Sys, copy: License, ops: seq<Op>, k: string): License
    decreases |ops|
  {
    if ops == [] then copy
    else
      var before := ops[..|ops| - 1];
      NextCopy(cfg, Run(cfg, s, before), ops[|ops| - 1], k, CopyAfter(cfg, s, copy, before, k))
  }

  lemma {:induction false} RunCopies(cfg: LicenseSystem.Config, s: Sys, copy: License, ops: seq<Op>, k: string)
    requires SysOk(cfg, s) && Copied(s, k, copy) && PossibleRun(cfg, s, ops) && NeverAstray(cfg, s, ops, k)
    ensures SysOk(cfg, Run(cfg, s, ops)) && Copied(Run(cfg, s, ops), k, CopyAfter(cfg, s, copy, ops, k))
    decreases |ops|
  {
    if ops != [] {
      var before, op := ops[..|ops| - 1], ops[|ops| - 1];
      forall i | 0 <= i < |before| ensures before[..i] == ops[..i] {
      }
      RunCopies(cfg, s, copy, before, k);
      StepKeepsOk(cfg, Run(cfg, s, before), op);
      StepCopies(cfg, Run(cfg, s, before), op, k, CopyAfter(cfg, s, copy, before, k));
    }
  }

  lemma CopyIsAnswered(cfg: LicenseSystem.Config, s: Sys, k: string, copy: License, now: Time)
    requires SysOk(cfg, s) && Copied(s, k, copy)
    ensures var scoped := Fetch(cfg.store, s.store, s.rows[k].tenant, k, now).1;
            var global := FetchGlobal(cfg.store, s.store, k, now).1;
            (scoped.Some? ==> scoped.value == copy) && (global.Some? ==> global.value == copy)
  {
    FetchOk(cfg.store, s.store, s.rows[k].tenant, k, now);
    FetchGlobalOk(cfg.store, s.store, k, now);
  }

  /**
   From an operation that writes a key on, through every run that does not go astray on it, both look-ups
   answer the last copy written and nothing else; that copy has the core of the row as it is now.
   */
  lemma LookupsAnswerTheLastCopy(cfg: LicenseSystem.Config, s: Sys, op: Op, k: string, ops: seq<Op>, now: Time)
    requires SysOk(cfg, s) && Possible(s, op) && WrittenUnder(cfg, s, op, k).Some? && !GoesAstray(cfg, s, op, k)
    requires var s1 := Exec(cfg, s, op); PossibleRun(cfg, s1, ops) && NeverAstray(cfg, s1, ops, k)
    ensures var s1 := Exec(cfg, s, op);
            var s2 := Run(cfg, s1, ops);
            var copy := CopyAfter(cfg, s1, WrittenUnder(cfg, s, op, k).value, ops, k);
            && IsCopy(s2.rows, k, copy)
            && var scoped := Fetch(cfg.store, s2.store, s2.rows[k].tenant, k, now).1;
               var global := FetchGlobal(cfg.store, s2.store, k, now).1;
               (scoped.Some? ==> scoped.value == copy) && (global.Some? ==> global.value == copy)
  {
    var s1, copy := Exec(cfg, s, op), WrittenUnder(cfg, s, op, k).value;
    StepKeepsOk(cfg, s, op);
    StepCopies(cfg, s, op, k, copy);
    RunCopies(cfg, s1, copy, ops, k);
    CopyIsAnswered(cfg, Run(cfg, s1, ops), k, CopyAfter(cfg, s1, copy, ops, k), now);
  }

  /* ---------- features over runs ---------- */

  predicate NoUpdateNames(ops: seq<Op>, k: string) {
    forall i | 0 <= i < |ops| :: ops[i].UpdateLicense? ==> ops[i].l.key != k
  }

  /** A save that leaves the key's row as it says. */
  predicate Saves(s: Sys, op: Op) {
    Creates(s, op) || (Updates(op) && FindByKey(s.rows, op.l.tenant, op.l.key).Some?)
  }

  /** Something was written under the key: a refill, a warm-up or a revocation. */
  predicate Rewritten(cfg: LicenseSystem.Config, s: Sys, ops: seq<Op>, k: string)
    decreases |ops|
  {
    ops != [] &&
    (Rewritten(cfg, s, ops[..|ops| - 1], k) || WrittenUnder(cfg, Run(cfg, s, ops[..|ops| - 1]), ops[|ops| - 1], k).Some?)
  }

  /** Without an update naming the key, whatever is written under it is the row, and only a write changes the row. */
  lemma WrittenIsRow(cfg: LicenseSystem.Config, s: Sys, op: Op, k: string)
    requires Possible(s, op) && k in s.rows && !GoesAstray(cfg, s, op, k) && (op.UpdateLicense? ==> op.l.key != k)
    ensures var rows, w := RowsAfter(s, op), WrittenUnder(cfg, s, op, k);
            k in rows && (if w.Some? then w.value == rows[k] else rows[k] == s.rows[k])
  {
    var w := WrittenUnder(cfg, s, op, k);
    if op.WarmUp? {
      WarmWritesRows(cfg.store, s.store, s.rows, op.recent, op.now);
    } else if op.RevokeLicense? && op.execOk && op.key == k && op.tenant == s.rows[k].tenant && !op.findOk {
      assert s.rows[k].(status := Revoked) == s.rows[k];
    }
  }

  lemma {:induction false} CopyIsSavedOrRow(cfg: LicenseSystem.Config, s: Sys, saved: License, ops: seq<Op>, k: string)
    requires k in s.rows && PossibleRun(cfg, s, ops) && NeverAstray(cfg, s, ops, k) && NoUpdateNames(ops, k)
    ensures k in Run(cfg, s, ops).rows
    ensures CopyAfter(cfg, s, saved, ops, k) == if Rewritten(cfg, s, ops, k) then Run(cfg, s, ops).rows[k] else saved
    decreases |ops|
  {
    if ops != [] {
      var before, op := ops[..|ops| - 1], ops[|ops| - 1];
      forall i | 0 <= i < |before| ensures before[..i] == ops[..i] {
      }
      CopyIsSavedOrRow(cfg, s, saved, before, k);
      WrittenIsRow(cfg, Run(cfg, s, before), op, k);
    }
  }

  /** The resolved features of a plan license: plan or running trial, plus added, minus removed, each once. */
  ghost predicate ShowsResolved(v: License, l: License, plan: Plan, at: Time) {
    var trying := l.trial.enabled && l.trial.endsAt.Some? && at < l.trial.endsAt.value;
    && NoDuplicates(v.finalFeatures)
    && (forall f :: f in v.finalFeatures <==>
          f != "" && f !in l.featuresRemove &&
          (f in l.featuresAdd || f in (if trying then l.trial.features else plan.features)))
  }

  /** The save resolves with the plan the table has, and lists what that gives. */
  ghost predicate ResolvesWith(cfg: LicenseSystem.Config, s: Sys, op: Op, plan: Plan) {
    && Saves(s, op) && op.l.kind == PlanKind && op.planOk && Plans.Sound(cfg.plans, s.plans)
    && Plans.FindById(s.plans.rows, op.l.tenant, op.l.planId.value) == Some(plan)
    && IsFinal(op.l, Some(plan), op.now, op.final)
  }

  lemma SavedCopyShowsResolved(cfg: LicenseSystem.Config, s: Sys, op: Op, plan: Plan)
    requires Possible(s, op) && Saves(s, op) && ResolvesWith(cfg, s, op, plan)
    ensures SavedCopy(cfg, s, op) == Settled(Submitted(op), Some(plan), op.final)
    ensures ShowsResolved(SavedCopy(cfg, s, op), op.l, plan, op.now)
  {
    Plans.ResolveOk(cfg.plans, s.plans, op.l.tenant, op.l.planId.value, PlanHit(s.store, op.l, op.now), true, op.now);
    ResolvedFeatures(op.l, Some(plan), op.now, op.final);
  }

  /** Until it expires, what was just saved is what both look-ups answer. */
  lemma SavedIsAnswered(cfg: LicenseSystem.Config, s: Sys, op: Op, later: Time)
    requires SysOk(cfg, s) && (Creates(s, op) || Updates(op)) && cfg.store.cap >= 2
    requires cfg.store.ttlL1 <= 0 || later <= op.now + cfg.store.ttlL1
    ensures var store, copy := Exec(cfg, s, op).store, SavedCopy(cfg, s, op);
            && Fetch(cfg.store, store, op.l.tenant, op.l.key, later).1 == Some(copy)
            && FetchGlobal(cfg.store, store, op.l.key, later).1 == Some(copy)
  {
    var e := PlanElsewhere(cfg, s, Submitted(op), op.planOk, op.now);
    DisturbOk(cfg.store, s.store, e);
    PutThenFetch(cfg.store, Disturbed(s.store, e), op.l.tenant, op.l.key, SavedCopy(cfg, s, op), op.now, later);
  }

  /** So a save with a plan is answered with the features it resolves to. */
  lemma SavedFeatures(cfg: LicenseSystem.Config, s: Sys, op: Op, plan: Plan, later: Time)
    requires SysOk(cfg, s) && Possible(s, op) && Saves(s, op) && ResolvesWith(cfg, s, op, plan) && cfg.store.cap >= 2
    requires cfg.store.ttlL1 <= 0 || later <= op.now + cfg.store.ttlL1
    ensures var store := Exec(cfg, s, op).store;
            var scoped := Fetch(cfg.store, store, op.l.tenant, op.l.key, later).1;
            && scoped.Some? && FetchGlobal(cfg.store, store, op.l.key, later).1 == scoped
            && ShowsResolved(scoped.value, op.l, plan, op.now)
            && (plan.productId.Some? ==> scoped.value.productId == plan.productId)
  {
    SavedCopyShowsResolved(cfg, s, op, plan);
    SavedIsAnswered(cfg, s, op, later);
  }

  /**
   From a save on, until another update names the key, whatever a look-up finds shows the resolved features,
   or the bare row with none, and the latter exactly when something was written under the key since.
   */
  lemma FeaturesOverRuns(cfg: LicenseSystem.Config, s: Sys, op: Op, plan: Plan, ops: seq<Op>, now: Time)
    requires SysOk(cfg, s) && Possible(s, op) && Saves(s, op) && ResolvesWith(cfg, s, op, plan)
    requires var s1, k := Exec(cfg, s, op), op.l.key;
             PossibleRun(cfg, s1, ops) && NeverAstray(cfg, s1, ops, k) && NoUpdateNames(ops, k)
    ensures var s1, k := Exec(cfg, s, op), op.l.key;
            var s2 := Run(cfg, s1, ops);
            && k in s2.rows
            && forall v | v in Answers(cfg, s2, k, now) ::
                 if Rewritten(cfg, s1, ops, k) then v == s2.rows[k] && v.finalFeatures == [] else ShowsResolved(v, op.l, plan, op.now)
  {
    SavedCopyShowsResolved(cfg, s, op, plan);
    var s2, copy := SavedRunCopy(cfg, s, op, ops);
    OneAnswer(cfg, s2, op.l.key, copy, now);
  }

  lemma OneAnswer(cfg: LicenseSystem.Config, s: Sys, k: string, copy: License, now: Time)
    requires SysOk(cfg, s) && Copied(s, k, copy)
    ensures (forall v | v in Answers(cfg, s, k, now) :: v == copy) && s.rows[k].finalFeatures == []
  {
    CopyIsAnswered(cfg, s, k, copy, now);
    assert RowOk(s.rows, k);
  }

  /** The one copy cached after a save and a run: the saved one, or the row if something was written since. */
  lemma SavedRunCopy(cfg: LicenseSystem.Config, s: Sys, op: Op, ops: seq<Op>) returns (s2: Sys, copy: License)
    requires SysOk(cfg, s) && Possible(s, op) && Saves(s, op)
    requires var s1, k := Exec(cfg, s, op), op.l.key;
             PossibleRun(cfg, s1, ops) && NeverAstray(cfg, s1, ops, k) && NoUpdateNames(ops, k)
    ensures s2 == Run(cfg, Exec(cfg, s, op), ops) && SysOk(cfg, s2) && Copied(s2, op.l.key, copy)
    ensures copy == if Rewritten(cfg, Exec(cfg, s, op), ops, op.l.key) then s2.rows[op.l.key] else SavedCopy(cfg, s, op)
  {
    var s1, k, saved := Exec(cfg, s, op), op.l.key, SavedCopy(cfg, s, op);
    SaveCopies(cfg, s, op);
    RunCopies(cfg, s1, saved, ops, k);
    CopyIsSavedOrRow(cfg, s1, saved, ops, k);
    s2 := Run(cfg, s1, ops);
    copy := CopyAfter(cfg, s1, saved, ops, k);
  }

  lemma SaveCopies(cfg: LicenseSystem.Config, s: Sys, op: Op)
    requires SysOk(cfg, s) && Possible(s, op) && Saves(s, op)
    ensures SysOk(cfg, Exec(cfg, s, op)) && Copied(Exec(cfg, s, op), op.l.key, SavedCopy(cfg, s, op))
  {
    SaveWrites(cfg, s, op);
    StepKeepsOk(cfg, s, op);
    StepCopies(cfg, s, op, op.l.key, SavedCopy(cfg, s, op));
  }

  lemma SaveWrites(cfg: LicenseSystem.Config, s: Sys, op: Op)
    requires Saves(s, op)
    ensures WrittenUnder(cfg, s, op, op.l.key) == Some(SavedCopy(cfg, s, op)) && !GoesAstray(cfg, s, op, op.l.key)
  {
    assert Writes(cfg, s, op) == [CacheWrite(op.l.tenant, op.l.key, SavedCopy(cfg, s, op))];
    OwnKeySpared(cfg, s, op);
  }

  /** What the owner's look-up and the look-up by key alone find. */
  function Answers(cfg: LicenseSystem.Config, s: Sys, k: string, now: Time): set<License>
    requires k in s.rows
  {
    var scoped, global := Fetch(cfg.store, s.store, s.rows[k].tenant, k, now).1, FetchGlobal(cfg.store, s.store, k, now).1;
    (if scoped.Some? then {scoped.value} else {}) + (if global.Some? then {global.value} else {})
  }
}
