/** The inductive invariant of the seat protocol and its preservation by every step. */
module SeatInvariant {
  import opened Common
  import opened Domain
  import opened SeatProtocol

  /** What a transaction read under its row lock is still what the table says. */
  ghost predicate RowHeld(s: State, req: Request, snap: Snapshot) {
    && snap.lid in s.licenses
    && var row := s.licenses[snap.lid];
    && Matches(row, req.tenant, req.key)
    && row.seatsTotal == snap.seatsTotal && row.status == snap.status && row.expiresAt == snap.expiresAt
  }

  ghost predicate PassedCheck(s: State, snap: Snapshot, at: Time) {
    snap.status == Active && !IsExpired(snap.expiresAt, at) && at <= s.now
  }

  predicate SeatFree(seatsTotal: int, count: int) {
    seatsTotal == UNLIMITED || count < seatsTotal
  }

  ghost predicate TxOk(s: State, tx: Tx) {
    match tx
    case Begun(_) => true
    case Locked(req, snap) => RowHeld(s, req, snap)
    case Checked(req, snap, at) => RowHeld(s, req, snap) && PassedCheck(s, snap, at)
    case Counted(req, snap, at, count, existing) =>
      && RowHeld(s, req, snap) && PassedCheck(s, snap, at) && ActiveCount(s, snap.lid) <= count
      && (existing.None? ==> !HasActive(s.acts, snap.lid, req.client))
      && (existing.Some? ==> existing.value in s.acts && s.acts[existing.value].license == snap.lid
                             && s.acts[existing.value].client == req.client)
    case Inserted(req, snap, at, count, remaining) =>
      && RowHeld(s, req, snap) && PassedCheck(s, snap, at) && ActiveCount(s, snap.lid) <= count
      && SeatFree(snap.seatsTotal, count) && remaining == RemainingAfterInsert(snap.seatsTotal, count)
      && !HasActive(s.acts, snap.lid, req.client)
    case Using(lid, units, total) =>
      lid in s.licenses && total == s.licenses[lid].usageUsed + units
    case Ended(_) => true
  }

  /** A row is locked by exactly the transaction whose program counter says so. */
  ghost predicate LocksOk(s: State) {
    && (forall l | l in s.locks :: s.locks[l] in s.txs && Holds(s.txs[s.locks[l]]) == Some(l))
    && (forall t | t in s.txs && Holds(s.txs[t]).Some? ::
          Holds(s.txs[t]).value in s.locks && s.locks[Holds(s.txs[t]).value] == t)
  }

  /** The record a live transaction would insert is not there yet. */
  ghost predicate IdsOk(s: State) {
    && (forall t | t in s.txs && IsActivating(s.txs[t]) :: t !in s.acts)
    && (forall t | t in s.txs && s.txs[t].Using? :: t !in s.usage)
  }

  /** At most one active row per (license, client). */
  ghost predicate OneActive(acts: map<Id, Activation>) {
    forall a, b | a in acts && b in acts && acts[a].active && acts[b].active
      && acts[a].license == acts[b].license && acts[a].client == acts[b].client :: a == b
  }

  ghost predicate UsageOk(s: State) {
    forall l | l in s.licenses :: s.licenses[l].usageUsed == UsageSum(s.usage, l)
  }

  ghost predicate TablesOk(s: State) {
    && UniqueKeys(s.licenses) && OneActive(s.acts)
    && (forall a | a in s.acts :: s.acts[a].license in s.licenses)
    && (forall u | u in s.usage :: s.usage[u].license in s.licenses)
  }

  ghost predicate Inv(s: State) {
    TablesOk(s) && LocksOk(s) && IdsOk(s) && TxsOk(s)
  }

  ghost predicate TxsOk(s: State) {
    forall t | t in s.txs :: TxOk(s, s.txs[t])
  }

  /* ---------- frames ---------- */

  /** Time moves forward and activation rows keep their identity. */
  ghost predicate Grows(s: State, s': State) {
    && s.now <= s'.now
    && forall a | a in s.acts :: a in s'.acts && s'.acts[a].license == s.acts[a].license
                                 && s'.acts[a].client == s.acts[a].client
  }

  /** The row a transaction holds is as it was, and its license gained no active row. */
  ghost predicate Undisturbed(s: State, s': State, tx: Tx) {
    Holds(tx).Some? ==>
      var l := Holds(tx).value;
      && (l in s.licenses ==> l in s'.licenses && s'.licenses[l] == s.licenses[l])
      && ActiveOf(s'.acts, l) <= ActiveOf(s.acts, l)
  }

  lemma Frame(s: State, s': State, tx: Tx)
    requires Grows(s, s')
    ensures TxOk(s, tx) && Undisturbed(s, s', tx) ==> TxOk(s', tx)
  {
    if TxOk(s, tx) && Undisturbed(s, s', tx) && Holds(tx).Some? {
      var l := Holds(tx).value;
      SubsetCard(ActiveOf(s'.acts, l), ActiveOf(s.acts, l));
      if tx.Counted? || tx.Inserted? {
        forall a | IsActiveFor(s'.acts, a, l, tx.req.client)
          ensures IsActiveFor(s.acts, a, l, tx.req.client)
        {
          assert a in ActiveOf(s'.acts, l);
        }
      }
    }
  }

  /** Transactions that kept their program counter and were not disturbed are still in order. */
  lemma TxsFrame(s: State, s': State)
    requires TxsOk(s) && Grows(s, s')
    ensures forall u | u in s'.txs && u in s.txs && s'.txs[u] == s.txs[u] && Undisturbed(s, s', s.txs[u]) ::
              TxOk(s', s'.txs[u])
  {
    forall u | u in s'.txs { Frame(s, s', s'.txs[u]); }
  }

  lemma EndKeepsLocks(s: State, t: Id, outcome: Outcome)
    requires LocksOk(s) && IdsOk(s) && t in s.txs
    ensures LocksOk(End(s, t, outcome)) && IdsOk(End(s, t, outcome))
  {
  }

  lemma TakeKeepsLocks(s: State, t: Id, lid: Id, tx: Tx)
    requires LocksOk(s) && lid !in s.locks && Holds(tx) == Some(lid)
    requires t in s.txs ==> Holds(s.txs[t]).None?
    ensures LocksOk(s.(txs := s.txs[t := tx], locks := s.locks[lid := t]))
  {
  }

  lemma AdvanceKeepsLocks(s: State, t: Id, tx: Tx)
    requires LocksOk(s) && IdsOk(s) && t in s.txs && Holds(s.txs[t]) == Holds(tx)
    requires IsActivating(s.txs[t]) && IsActivating(tx)
    ensures LocksOk(s.(txs := s.txs[t := tx])) && IdsOk(s.(txs := s.txs[t := tx]))
  {
  }

  lemma EndKeeps(s: State, t: Id, outcome: Outcome)
    requires Inv(s) && t in s.txs
    ensures Inv(End(s, t, outcome))
  {
    var s' := End(s, t, outcome);
    EndKeepsLocks(s, t, outcome);
    assert TxsOk(s') by { TxsFrame(s, s'); }
  }

  /** Advancing one transaction's program counter without touching the tables. */
  lemma AdvanceKeeps(s: State, t: Id, tx: Tx)
    requires Inv(s) && t in s.txs && Holds(s.txs[t]) == Holds(tx)
    requires IsActivating(s.txs[t]) && IsActivating(tx) && tx.req == s.txs[t].req
    requires TxOk(s, tx)
    ensures Inv(s.(txs := s.txs[t := tx]))
  {
    var s' := s.(txs := s.txs[t := tx]);
    AdvanceKeepsLocks(s, t, tx);
    assert TxsOk(s') by { TxsFrame(s, s'); Frame(s, s', tx); }
  }

  lemma ReleaseKeeps(s: State, rows: set<Id>)
    requires Inv(s)
    ensures Inv(s.(acts := ReleaseRows(s.acts, rows)))
  {
    var s' := s.(acts := ReleaseRows(s.acts, rows));
    assert TablesOk(s') by { ReleaseKeepsTablesOk(s, rows); }
    assert TxsOk(s') by { ReleaseKeepsTxs(s, rows); }
  }

  lemma ReleaseKeepsTablesOk(s: State, rows: set<Id>)
    requires TablesOk(s)
    ensures TablesOk(s.(acts := ReleaseRows(s.acts, rows)))
  {
  }

  lemma ReleaseKeepsTxs(s: State, rows: set<Id>)
    requires TxsOk(s)
    ensures TxsOk(s.(acts := ReleaseRows(s.acts, rows)))
  {
    var s' := s.(acts := ReleaseRows(s.acts, rows));
    TxsFrame(s, s');
  }

  /** Admin statements may rewrite only unlocked rows, and never usage columns, keys or tenants. */
  lemma AdminKeeps(s: State, licenses: map<Id, LicenseRow>)
    requires Inv(s) && licenses.Keys == s.licenses.Keys
    requires forall l | l in s.licenses :: licenses[l].key == s.licenses[l].key
                                           && licenses[l].usageUsed == s.licenses[l].usageUsed
    requires forall l | l in s.licenses && l in s.locks :: licenses[l] == s.licenses[l]
    ensures Inv(s.(licenses := licenses))
  {
    var s' := s.(licenses := licenses);
    assert TxsOk(s') by { TxsFrame(s, s'); }
  }

  /** A committing transaction adds exactly its own row to its license's active rows. */
  lemma CommitAdds(s: State, t: Id)
    requires Enabled(s, Commit(t)) && t !in s.acts
    ensures var s' := Apply(s, Commit(t));
            && ActiveOf(s'.acts, s.txs[t].snap.lid) == ActiveOf(s.acts, s.txs[t].snap.lid) + {t}
            && forall l | l != s.txs[t].snap.lid :: ActiveOf(s'.acts, l) == ActiveOf(s.acts, l)
  {
  }

  lemma CommitKeepsTxs(s: State, t: Id)
    requires TxsOk(s) && LocksOk(s) && IdsOk(s) && Enabled(s, Commit(t))
    ensures var s' := Apply(s, Commit(t)); TxsOk(s')
  {
    var s' := Apply(s, Commit(t));
    CommitAdds(s, t);
    assert Grows(s, s');
    forall u | u in s'.txs ensures TxOk(s', s'.txs[u]) {
      if u != t {
        CommitDisturbsNobody(s, t, u);
        Frame(s, s', s.txs[u]);
      }
    }
  }

  /** Nobody else holds the row the committing transaction holds. */
  lemma CommitDisturbsNobody(s: State, t: Id, u: Id)
    requires LocksOk(s) && IdsOk(s) && Enabled(s, Commit(t)) && u in s.txs && u != t
    ensures u in Apply(s, Commit(t)).txs && Apply(s, Commit(t)).txs[u] == s.txs[u]
    ensures Undisturbed(s, Apply(s, Commit(t)), s.txs[u])
  {
    CommitAdds(s, t);
    assert Holds(s.txs[t]) == Some(s.txs[t].snap.lid);
    assert Holds(s.txs[u]) != Holds(s.txs[t]);
  }

  lemma CommitKeepsOneActive(s: State, t: Id)
    requires TxsOk(s) && OneActive(s.acts) && Enabled(s, Commit(t))
    ensures OneActive(Apply(s, Commit(t)).acts)
  {
    var tx := s.txs[t];
    assert TxOk(s, tx);
    forall a | a in s.acts && s.acts[a].active && s.acts[a].license == tx.snap.lid
      ensures s.acts[a].client != tx.req.client
    {
      assert !IsActiveFor(s.acts, a, tx.snap.lid, tx.req.client);
    }
  }

  lemma CommitKeeps(s: State, t: Id)
    requires Inv(s) && Enabled(s, Commit(t))
    ensures Inv(Apply(s, Commit(t)))
  {
    var s' := Apply(s, Commit(t));
    assert TxOk(s, s.txs[t]);
    assert TablesOk(s') by { CommitKeepsOneActive(s, t); }
    assert LocksOk(s') by { EndKeepsLocks(s, t, s'.txs[t].outcome); }
    assert IdsOk(s');
    CommitKeepsTxs(s, t);
  }

  /* ---------- usage totals ---------- */

  lemma {:induction false} UsageSumRemove(usage: map<Id, Usage>, u: Id, lid: Id)
    requires u in usage
    ensures UsageSum(usage, lid)
         == UsageSum(usage - {u}, lid) + if usage[u].license == lid then usage[u].units else 0
    decreases |usage|
  {
    // the element the definition happens to pick
    var v :| v in usage && UsageSum(usage, lid)
         == (if usage[v].license == lid then usage[v].units else 0) + UsageSum(usage - {v}, lid);
    if v != u {
      UsageSumRemove(usage - {v}, u, lid);
      UsageSumRemove(usage - {u}, v, lid);
      assert usage - {v} - {u} == usage - {u} - {v};
    }
  }

  lemma {:induction false} UsageSumAbsent(usage: map<Id, Usage>, lid: Id)
    requires forall u | u in usage :: usage[u].license != lid
    ensures UsageSum(usage, lid) == 0
    decreases |usage|
  {
    if usage != map[] {
      var u :| u in usage;
      UsageSumRemove(usage, u, lid);
      UsageSumAbsent(usage - {u}, lid);
    }
  }

  lemma UseCommitKeepsTotals(s: State, t: Id)
    requires TxsOk(s) && IdsOk(s) && UsageOk(s) && Enabled(s, UseCommit(t))
    ensures UsageOk(Apply(s, UseCommit(t)))
  {
    var s' := Apply(s, UseCommit(t));
    assert TxOk(s, s.txs[t]);
    assert s'.usage - {t} == s.usage;
    forall l | l in s'.licenses ensures s'.licenses[l].usageUsed == UsageSum(s'.usage, l) {
      UsageSumRemove(s'.usage, t, l);
    }
  }

  lemma UseCommitKeepsTxs(s: State, t: Id)
    requires TxsOk(s) && LocksOk(s) && Enabled(s, UseCommit(t))
    ensures var s' := Apply(s, UseCommit(t)); TxsOk(s')
  {
    var s' := Apply(s, UseCommit(t));
    assert TxsOk(s') by { TxsFrame(s, s'); }
  }

  lemma UseCommitKeeps(s: State, t: Id)
    requires Inv(s) && Enabled(s, UseCommit(t))
    ensures Inv(Apply(s, UseCommit(t)))
  {
    EndKeepsLocks(s, t, Apply(s, UseCommit(t)).txs[t].outcome);

    UseCommitKeepsTxs(s, t);
  }

  lemma CreateKeeps(s: State, lid: Id, row: LicenseRow)
    requires Inv(s) && Enabled(s, CreateLicense(lid, row))
    ensures Inv(Apply(s, CreateLicense(lid, row)))
  {
    var s' := Apply(s, CreateLicense(lid, row));
    assert TxsOk(s') by { TxsFrame(s, s'); }
  }

  /** Only transaction `t` moved and the tables are as they were. */
  ghost predicate MovedOnly(s: State, s': State, t: Id) {
    && s'.now == s.now && s'.licenses == s.licenses && s'.acts == s.acts && s'.usage == s.usage && t in s'.txs
    && forall u | u in s'.txs && u != t :: u in s.txs && s'.txs[u] == s.txs[u]
  }

  lemma MoverKeepsTxs(s: State, s': State, t: Id)
    requires TxsOk(s) && MovedOnly(s, s', t) && TxOk(s', s'.txs[t])
    ensures TxsOk(s')
  {
    forall u | u in s'.txs && u != t ensures TxOk(s', s'.txs[u]) {
      Frame(s, s', s.txs[u]);
    }
  }

  lemma MoverKeepsIds(s: State, s': State, t: Id)
    requires IdsOk(s) && MovedOnly(s, s', t)
    requires (IsActivating(s'.txs[t]) ==> t !in s.acts) && (s'.txs[t].Using? ==> t !in s.usage)
    ensures IdsOk(s')
  {
  }

  lemma BeginKeeps(s: State, t: Id, req: Request)
    requires Inv(s) && Enabled(s, Begin(t, req))
    ensures Inv(Apply(s, Begin(t, req)))
  {
    var s' := Apply(s, Begin(t, req));
    MoverKeepsTxs(s, s', t);
    MoverKeepsIds(s, s', t);
  }

  lemma UseBeginKeeps(s: State, t: Id, lid: Id, units: int)
    requires Inv(s) && Enabled(s, UseBegin(t, lid, units))
    ensures Inv(Apply(s, UseBegin(t, lid, units)))
  {
    var s' := Apply(s, UseBegin(t, lid, units));
    assert LocksOk(s') by { TakeKeepsLocks(s, t, lid, s'.txs[t]); }
    MoverKeepsTxs(s, s', t);
    MoverKeepsIds(s, s', t);
  }

  lemma LockKeeps(s: State, t: Id, lid: Id)
    requires Inv(s) && Enabled(s, LockRow(t, lid))
    ensures Inv(Apply(s, LockRow(t, lid)))
  {
    var s' := Apply(s, LockRow(t, lid));
    assert LocksOk(s') by { TakeKeepsLocks(s, t, lid, s'.txs[t]); }
    MoverKeepsTxs(s, s', t);
    MoverKeepsIds(s, s', t);
  }

  lemma TickKeeps(s: State, delta: nat)
    requires Inv(s)
    ensures Inv(Apply(s, Tick(delta)))
  {
    var s' := Apply(s, Tick(delta));
    assert TxsOk(s') by { TxsFrame(s, s'); }
  }

  lemma CheckKeeps(s: State, t: Id)
    requires Inv(s) && Enabled(s, CheckRow(t))
    ensures Inv(Apply(s, CheckRow(t)))
  {
    assert TxOk(s, s.txs[t]);
    var tx' := Apply(s, CheckRow(t)).txs[t];
    if tx'.Checked? { AdvanceKeeps(s, t, tx'); } else { EndKeeps(s, t, tx'.outcome); }
  }

  lemma CountKeeps(s: State, t: Id, existing: Option<Id>)
    requires Inv(s) && Enabled(s, CountSeats(t, existing))
    ensures Inv(Apply(s, CountSeats(t, existing)))
  {
    assert TxOk(s, s.txs[t]);
    AdvanceKeeps(s, t, Apply(s, CountSeats(t, existing)).txs[t]);
  }

  lemma DecideKeeps(s: State, t: Id)
    requires Inv(s) && Enabled(s, Decide(t))
    ensures Inv(Apply(s, Decide(t)))
  {
    assert TxOk(s, s.txs[t]);
    var tx' := ApplyDecide(s, t).txs[t];
    if tx'.Inserted? { AdvanceKeeps(s, t, tx'); } else { EndKeeps(s, t, tx'.outcome); }
  }

  /** Statements of activating and metering transactions. */
  lemma TxStepKeepsInv(s: State, step: Step)
    requires Inv(s) && Enabled(s, step)
    requires step.Begin? || step.LockRow? || step.LockMiss? || step.CheckRow? || step.CountSeats?
          || step.Decide? || step.Commit? || step.Abort? || step.UseBegin? || step.UseCommit?
    ensures Inv(Apply(s, step))
  {
    match step
    case Begin(t, req) => BeginKeeps(s, t, req);
    case LockRow(t, lid) => LockKeeps(s, t, lid);
    case LockMiss(t) => EndKeeps(s, t, Failed(NotFound));
    case CheckRow(t) => CheckKeeps(s, t);
    case CountSeats(t, existing) => CountKeeps(s, t, existing);
    case Decide(t) => DecideKeeps(s, t);
    case Commit(t) => CommitKeeps(s, t);
    case Abort(t) => EndKeeps(s, t, Failed(Aborted));
    case UseBegin(t, lid, units) => UseBeginKeeps(s, t, lid, units);
    case UseCommit(t) => UseCommitKeeps(s, t);
  }

  /** Releases and admin statements, none of which belongs to a transaction of the protocol. */
  lemma TableStepKeepsInv(s: State, step: Step)
    requires Inv(s) && Enabled(s, step)
    requires step.Release? || step.ReleaseByClient? || step.Revoke? || step.Update?
    ensures Inv(Apply(s, step))
  {
    if step.Release? {
      ReleaseKeeps(s, {step.id});
    } else if step.ReleaseByClient? {
      ReleaseKeeps(s, ClientRows(s, step.tenant, step.key, step.client));
    } else {
      AdminKeeps(s, Apply(s, step).licenses);
    }
  }

  /** Every step of every transaction keeps the invariant. */
  lemma StepKeepsInv(s: State, step: Step)
    requires Inv(s)
    ensures Inv(Exec(s, step))
  {
    if Enabled(s, step) {
      if step.Tick? {
        TickKeeps(s, step.delta);
      } else if step.CreateLicense? {
        CreateKeeps(s, step.lid, step.row);
      } else if step.Release? || step.ReleaseByClient? || step.Revoke? || step.Update? {
        TableStepKeepsInv(s, step);
      } else {
        TxStepKeepsInv(s, step);
      }
    }
  }

  lemma {:induction false} RunKeepsInv(s: State, steps: seq<Step>)
    requires Inv(s)
    ensures Inv(Run(s, steps))
    decreases |steps|
  {
    if steps != [] {
      StepKeepsInv(s, steps[0]);
      RunKeepsInv(Exec(s, steps[0]), steps[1..]);
    }
  }

  lemma OtherStepKeepsUsage(s: State, step: Step)
    requires UsageOk(s) && Enabled(s, step) && !step.UseCommit? && !step.CreateLicense?
    ensures UsageOk(Apply(s, step))
  {
  }

  lemma StepKeepsUsage(s: State, step: Step)
    requires Inv(s) && UsageOk(s)
    ensures UsageOk(Exec(s, step))
  {
    if Enabled(s, step) {
      if step.UseCommit? {
        UseCommitKeepsTotals(s, step.tx);
      } else if step.CreateLicense? {
        UsageSumAbsent(s.usage, step.lid);
      } else {
        OtherStepKeepsUsage(s, step);
      }
    }
  }

  lemma InitHasInv(s: State)
    requires Init(s)
    ensures Inv(s) && UsageOk(s)
  {
    forall l | l in s.licenses ensures UsageSum(s.usage, l) == 0 { UsageSumAbsent(s.usage, l); }
  }
}
