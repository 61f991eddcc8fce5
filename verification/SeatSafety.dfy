/** What the seat protocol guarantees over every interleaving of every number of transactions. */
module SeatSafety {
  import opened Common
  import opened Domain
  import opened SeatProtocol
  import opened SeatInvariant

  ghost predicate Reachable(s: State) {
    exists s0, steps :: Init(s0) && s == Run(s0, steps)
  }

  lemma ReachableHasInv(s: State)
    requires Reachable(s)
    ensures Inv(s)
  {
    var s0, steps :| Init(s0) && s == Run(s0, steps);
    InitHasInv(s0);
    RunKeepsInv(s0, steps);
  }

  /* ---------- seats ---------- */

  predicate Within(seatsTotal: int, count: int) {
    seatsTotal == UNLIMITED || count <= seatsTotal
  }

  /** The row is this tenant's under this key, not deleted, active, and not past its expiry at that instant. */
  predicate InForce(row: LicenseRow, req: Request, at: Time) {
    && row.tenant == req.tenant && row.key == req.key && !row.deleted
    && row.status == Active && (row.expiresAt.Some? ==> at <= row.expiresAt.value)
  }

  /** Taken and remaining make up the seats, unless they are unlimited. */
  predicate Adds(taken: int, remaining: int, seatsTotal: int) {
    if seatsTotal == -1 then remaining == -1 else taken + remaining == seatsTotal
  }

  /**
   Whatever happened before and whatever the cache said, a committing insert finds the license row
   active at that very moment, unexpired at the check, and does not take the active count over the
   seats in force. What it reports as remaining makes up the seats with the count it took and itself, so it is
   what is free after the insert less what was released since the count.
   */
  lemma CommitIsSafe(s: State, t: Id)
    requires Reachable(s) && Enabled(s, Commit(t))
    ensures var tx, s' := s.txs[t], Apply(s, Commit(t));
            var l := tx.snap.lid;
            && l in s.licenses && InForce(s.licenses[l], tx.req, tx.at) && tx.at <= s.now
            && ActiveCount(s', l) == ActiveCount(s, l) + 1
            && (s.licenses[l].seatsTotal == -1 || ActiveCount(s', l) <= s.licenses[l].seatsTotal)
            && s'.txs[t].Ended? && s'.txs[t].outcome.Fresh? && s'.txs[t].outcome.id == t && s'.txs[t].outcome.lid == l
            && ActiveCount(s', l) <= tx.count + 1
            && Adds(tx.count + 1, s'.txs[t].outcome.remaining, s.licenses[l].seatsTotal)
            && s'.acts == s.acts[t := Activation(l, tx.req.tenant, tx.req.client, true)]
  {
    ReachableHasInv(s);
    assert TxOk(s, s.txs[t]);
    CommitAdds(s, t);
  }

  /** A transaction that counted so many seats and found none of the client's. */
  predicate CountedSo(tx: Tx, lid: Id, seatsTotal: int, count: nat) {
    match tx
    case Counted(_, snap, _, n, existing) => snap.lid == lid && snap.seatsTotal == seatsTotal && n == count && existing.None?
    case Inserted(_, snap, _, n, remaining) => snap.lid == lid && n == count && Adds(count + 1, remaining, seatsTotal)
    case Ended(outcome) => outcome.Fresh? ==> outcome.lid == lid && Adds(count + 1, outcome.remaining, seatsTotal)
    case _ => false
  }

  lemma StepKeepsCount(s: State, step: Step, t: Id, lid: Id, seatsTotal: int, count: nat)
    requires t in s.txs && CountedSo(s.txs[t], lid, seatsTotal, count)
    ensures t in Exec(s, step).txs && CountedSo(Exec(s, step).txs[t], lid, seatsTotal, count)
  {
    if !Concerns(step, t) {
      OthersKeepTx(s, step, t);
    }
  }

  lemma {:induction false} RunKeepsCount(s: State, steps: seq<Step>, t: Id, lid: Id, seatsTotal: int, count: nat)
    requires t in s.txs && CountedSo(s.txs[t], lid, seatsTotal, count)
    ensures t in Run(s, steps).txs && CountedSo(Run(s, steps).txs[t], lid, seatsTotal, count)
    decreases |steps|
  {
    if steps != [] {
      StepKeepsCount(s, steps[0], t, lid, seatsTotal, count);
      RunKeepsCount(Exec(s, steps[0]), steps[1..], t, lid, seatsTotal, count);
    }
  }

  /**
   A fresh activation: whatever runs between count and commit, it reports the seats of the row less the rows
   that were active when it counted and its own.
   */
  lemma FreshRemaining(s: State, t: Id, steps: seq<Step>)
    requires Reachable(s) && Enabled(s, CountSeats(t, None))
    ensures var lid := s.txs[t].snap.lid;
            var s2 := Run(Apply(s, CountSeats(t, None)), steps);
            && lid in s.licenses && t in s2.txs
            && (s2.txs[t].Ended? && s2.txs[t].outcome.Fresh? ==>
                  s2.txs[t].outcome.lid == lid && Adds(ActiveCount(s, lid) + 1, s2.txs[t].outcome.remaining, s.licenses[lid].seatsTotal))
  {
    ReachableHasInv(s);
    assert TxOk(s, s.txs[t]);
    var lid := s.txs[t].snap.lid;
    RunKeepsCount(Apply(s, CountSeats(t, None)), steps, t, lid, s.licenses[lid].seatsTotal, ActiveCount(s, lid));
  }

  /** No license has more active rows than seats. */
  ghost predicate Bounded(s: State) {
    forall l | l in s.licenses :: Within(s.licenses[l].seatsTotal, ActiveCount(s, l))
  }

  /** An update that sets the seats of a license below what is in use right now. */
  ghost predicate LowersBelowUse(s: State, step: Step) {
    && step.Update? && Enabled(s, step) && step.seats != UNLIMITED
    && exists l :: l in s.licenses && Matches(s.licenses[l], step.tenant, step.key) && ActiveCount(s, l) > step.seats
  }

  /** A step breaks the bound if and only if it lowers the seats below the current use. */
  lemma StepKeepsBoundIff(s: State, step: Step)
    requires Inv(s) && Bounded(s)
    ensures Bounded(Exec(s, step)) <==> !LowersBelowUse(s, step)
  {
    if Enabled(s, step) {
      if step.Commit? {
        CommitKeepsBound(s, step.tx);
      } else if step.Update? {
        UpdateKeepsBoundIff(s, step);
      } else if step.CreateLicense? {
        CreateKeepsBound(s, step.lid, step.row);
      } else {
        OtherStepKeepsBound(s, step);
      }
    }
  }

  lemma CommitKeepsBound(s: State, t: Id)
    requires TxsOk(s) && IdsOk(s) && Bounded(s) && Enabled(s, Commit(t))
    ensures Bounded(Apply(s, Commit(t)))
  {
    var s' := Apply(s, Commit(t));
    assert TxOk(s, s.txs[t]);
    CommitAdds(s, t);
    forall l | l in s'.licenses ensures Within(s'.licenses[l].seatsTotal, ActiveCount(s', l)) {
      assert Within(s.licenses[l].seatsTotal, ActiveCount(s, l));
    }
  }

  lemma CreateKeepsBound(s: State, lid: Id, row: LicenseRow)
    requires TablesOk(s) && Bounded(s) && Enabled(s, CreateLicense(lid, row))
    ensures Bounded(Apply(s, CreateLicense(lid, row)))
  {
    assert ActiveOf(s.acts, lid) == {};
  }

  lemma UpdateKeepsBoundIff(s: State, step: Step)
    requires Bounded(s) && step.Update? && Enabled(s, step)
    ensures Bounded(Apply(s, step)) <==> !LowersBelowUse(s, step)
  {
    var s' := Apply(s, step);
    if !LowersBelowUse(s, step) {
      forall l | l in s'.licenses ensures Within(s'.licenses[l].seatsTotal, ActiveCount(s', l)) {
        assert Within(s.licenses[l].seatsTotal, ActiveCount(s, l));
      }
    } else {
      var l :| l in s.licenses && Matches(s.licenses[l], step.tenant, step.key) && ActiveCount(s, l) > step.seats;
      assert l in s'.licenses && !Within(s'.licenses[l].seatsTotal, ActiveCount(s', l));
    }
  }

  lemma OtherStepKeepsBound(s: State, step: Step)
    requires Bounded(s) && Enabled(s, step) && !step.Commit? && !step.Update? && !step.CreateLicense?
    ensures Bounded(Apply(s, step))
  {
    var s' := Apply(s, step);
    forall l | l in s'.licenses ensures Within(s'.licenses[l].seatsTotal, ActiveCount(s', l)) {
      SeatsKept(s, step, l);
      NoneGained(s, step, l);
      SubsetCard(ActiveOf(s'.acts, l), ActiveOf(s.acts, l));
    }
  }

  lemma SeatsKept(s: State, step: Step, l: Id)
    requires Enabled(s, step) && !step.Update? && !step.CreateLicense? && l in Apply(s, step).licenses
    ensures l in s.licenses && Apply(s, step).licenses[l].seatsTotal == s.licenses[l].seatsTotal
  {
  }

  /** Only commits and releases change activation rows. */
  predicate TouchesActs(step: Step) {
    step.Commit? || step.Release? || step.ReleaseByClient?
  }

  lemma ActsUntouched(s: State, step: Step)
    requires !TouchesActs(step)
    ensures Exec(s, step).acts == s.acts
  {
  }

  lemma NoneGained(s: State, step: Step, l: Id)
    requires Enabled(s, step) && !step.Commit?
    ensures ActiveOf(Apply(s, step).acts, l) <= ActiveOf(s.acts, l)
  {
    if !TouchesActs(step) {
      ActsUntouched(s, step);
    }
  }

  /** An update that lowers the seats of a license at all. */
  ghost predicate Lowers(s: State, step: Step) {
    && step.Update? && step.seats != UNLIMITED
    && exists l :: l in s.licenses && Matches(s.licenses[l], step.tenant, step.key)
                   && (s.licenses[l].seatsTotal == UNLIMITED || step.seats < s.licenses[l].seatsTotal)
  }

  ghost predicate NeverLowers(s: State, steps: seq<Step>)
    decreases |steps|
  {
    steps != [] ==> !Lowers(s, steps[0]) && NeverLowers(Exec(s, steps[0]), steps[1..])
  }

  lemma {:induction false} RunKeepsBound(s: State, steps: seq<Step>)
    requires Inv(s) && Bounded(s) && NeverLowers(s, steps)
    ensures Bounded(Run(s, steps))
    decreases |steps|
  {
    if steps != [] {
      StepKeepsBoundIff(s, steps[0]);
      StepKeepsInv(s, steps[0]);
      RunKeepsBound(Exec(s, steps[0]), steps[1..]);
    }
  }

  /** Seat safety: if no update lowers seats_total, active <= seats_total in every reachable state. */
  lemma SeatsNeverExceeded(s0: State, steps: seq<Step>)
    requires Init(s0) && NeverLowers(s0, steps)
    ensures Bounded(Run(s0, steps))
  {
    InitHasInv(s0);
    forall l ensures ActiveOf(s0.acts, l) == {} {}
    RunKeepsBound(s0, steps);
  }

  /* ---------- one seat per client ---------- */

  lemma OneActivePerClient(s: State, a: Id, b: Id, lid: Id, client: Id)
    requires Reachable(s) && IsActiveFor(s.acts, a, lid, client) && IsActiveFor(s.acts, b, lid, client)
    ensures a == b
  {
    ReachableHasInv(s);
  }

  /** Under the row lock the INSERT can hit neither the primary key nor the partial unique index. */
  lemma UniqueViolationUnreachable(s: State, t: Id)
    requires Reachable(s) && Enabled(s, Decide(t)) && s.txs[t].existing.None?
    ensures !UniqueViolation(s, t)
    ensures Apply(s, Decide(t)).txs[t] != Ended(Failed(InsertFailed))
  {
    ReachableHasInv(s);
    assert TxOk(s, s.txs[t]);
  }

  /** Rows keep their identity and only ever go from active to released. */
  ghost predicate OnlyReleases(acts: map<Id, Activation>, acts': map<Id, Activation>) {
    forall a | a in acts :: a in acts' && (acts'[a] == acts[a] || acts'[a] == acts[a].(active := false))
  }

  lemma StepOnlyReleases(s: State, step: Step)
    requires IdsOk(s)
    ensures OnlyReleases(s.acts, Exec(s, step).acts)
  {
    if !TouchesActs(step) {
      ActsUntouched(s, step);
    }
  }

  lemma {:induction false} RecordsOnlyGoToReleased(s: State, steps: seq<Step>)
    requires Inv(s)
    ensures OnlyReleases(s.acts, Run(s, steps).acts)
    decreases |steps|
  {
    if steps != [] {
      StepOnlyReleases(s, steps[0]);
      StepKeepsInv(s, steps[0]);
      RecordsOnlyGoToReleased(Exec(s, steps[0]), steps[1..]);
    }
  }

  lemma StepNoSecondSeat(s: State, step: Step, a: Id, lid: Id, client: Id)
    requires TxsOk(s) && IsActiveFor(s.acts, a, lid, client)
    ensures var acts' := Exec(s, step).acts;
            forall b | b in acts' && acts'[b].license == lid && acts'[b].client == client :: b in s.acts
  {
    if Enabled(s, step) && step.Commit? {
      assert TxOk(s, s.txs[step.tx]);
    }
  }

  /** While a client's row stays active no further row is ever inserted for that client. */
  lemma {:induction false} NoSecondSeat(s: State, steps: seq<Step>, a: Id, lid: Id, client: Id)
    requires Inv(s) && IsActiveFor(s.acts, a, lid, client)
    requires IsActiveFor(Run(s, steps).acts, a, lid, client)
    ensures forall b | b in Run(s, steps).acts && Run(s, steps).acts[b].license == lid
                       && Run(s, steps).acts[b].client == client :: b in s.acts
    decreases |steps|
  {
    if steps != [] {
      var s1 := Exec(s, steps[0]);
      StepKeepsInv(s, steps[0]);
      assert IsActiveFor(s1.acts, a, lid, client) by {
        StepOnlyReleases(s, steps[0]);
        RecordsOnlyGoToReleased(s1, steps[1..]);
      }
      StepNoSecondSeat(s, steps[0], a, lid, client);
      NoSecondSeat(s1, steps[1..], a, lid, client);
      forall b | b in Run(s1, steps[1..]).acts && Run(s1, steps[1..]).acts[b].license == lid
                 && Run(s1, steps[1..]).acts[b].client == client ensures b in s.acts
      {
        RecordsOnlyGoToReleased(s1, steps[1..]);
      }
    }
  }

  /** Program counters only move forward. */
  predicate Past(tx: Tx) {
    tx.Inserted? || tx.Ended?
  }

  predicate Concerns(step: Step, t: Id) {
    match step
    case Begin(tx, _) => tx == t
    case LockRow(tx, _) => tx == t
    case LockMiss(tx) => tx == t
    case CheckRow(tx) => tx == t
    case CountSeats(tx, _) => tx == t
    case Decide(tx) => tx == t
    case Commit(tx) => tx == t
    case Abort(tx) => tx == t
    case UseBegin(tx, _, _) => tx == t
    case UseCommit(tx) => tx == t
    case _ => false
  }

  lemma OthersKeepTx(s: State, step: Step, t: Id)
    requires t in s.txs && !Concerns(step, t)
    ensures t in Exec(s, step).txs && Exec(s, step).txs[t] == s.txs[t]
  {
    if Enabled(s, step) {
      if TableStep(step) {
        TableStepKeepsTxs(s, step);
      } else if step.Begin? || step.LockRow? || step.LockMiss? || step.CheckRow? || step.CountSeats? {
        EarlyStepKeepsOthers(s, step, t);
      } else {
        LateStepKeepsOthers(s, step, t);
      }
    }
  }

  /** Statements that belong to no transaction of the protocol. */
  predicate TableStep(step: Step) {
    step.Tick? || step.Release? || step.ReleaseByClient? || step.CreateLicense? || step.Revoke? || step.Update?
  }

  lemma TableStepKeepsTxs(s: State, step: Step)
    requires TableStep(step) && Enabled(s, step)
    ensures Apply(s, step).txs == s.txs
  {
  }

  lemma EarlyStepKeepsOthers(s: State, step: Step, t: Id)
    requires Enabled(s, step) && !Concerns(step, t) && t in s.txs
    requires step.Begin? || step.LockRow? || step.LockMiss? || step.CheckRow? || step.CountSeats?
    ensures t in Apply(s, step).txs && Apply(s, step).txs[t] == s.txs[t]
  {
  }

  lemma LateStepKeepsOthers(s: State, step: Step, t: Id)
    requires Enabled(s, step) && !Concerns(step, t) && t in s.txs
    requires step.Decide? || step.Commit? || step.Abort? || step.UseBegin? || step.UseCommit?
    ensures t in Apply(s, step).txs && Apply(s, step).txs[t] == s.txs[t]
  {
  }

  lemma CountedStep(s: State, step: Step, t: Id)
    requires t in s.txs && (s.txs[t].Counted? || Past(s.txs[t]))
    ensures var s' := Exec(s, step); t in s'.txs && (Past(s'.txs[t]) || s'.txs[t] == s.txs[t])
  {
    if !Concerns(step, t) {
      OthersKeepTx(s, step, t);
    }
  }

  lemma {:induction false} CountedStaysPut(s: State, steps: seq<Step>, t: Id)
    requires t in s.txs && (s.txs[t].Counted? || Past(s.txs[t]))
    ensures var s' := Run(s, steps); t in s'.txs && (Past(s'.txs[t]) || s'.txs[t] == s.txs[t])
    decreases |steps|
  {
    if steps != [] {
      var s1 := Exec(s, steps[0]);
      CountedStep(s, steps[0], t);
      CountedStaysPut(s1, steps[1..], t);
    }
  }

  /**
   A repeat activation: if the client held row `a` when the seats were counted, then whatever runs in
   between, the call can only report that very row, it changes no activation row, and what it reports as
   remaining makes up the seats of the row with the rows active when it counted.
   */
  lemma RepeatReturnsExisting(s: State, t: Id, existing: Option<Id>, a: Id, steps: seq<Step>)
    requires Reachable(s) && Enabled(s, CountSeats(t, existing))
    requires IsActiveFor(s.acts, a, s.txs[t].snap.lid, s.txs[t].req.client)
    ensures var lid := s.txs[t].snap.lid;
            var s2 := Run(Apply(s, CountSeats(t, existing)), steps);
            && existing == Some(a) && lid in s.licenses && t in s2.txs
            && (s2.txs[t].Counted? ==>
                  var tx := Exec(s2, Decide(t)).txs[t];
                  && Exec(s2, Decide(t)).acts == s2.acts
                  && tx.Ended? && tx.outcome.Repeat? && tx.outcome.id == a && tx.outcome.lid == lid
                  && Adds(ActiveCount(s, lid), tx.outcome.remaining, s.licenses[lid].seatsTotal))
  {
    ReachableHasInv(s);
    assert TxOk(s, s.txs[t]);
    var s1 := Apply(s, CountSeats(t, existing));
    CountedStaysPut(s1, steps, t);
  }

  /* ---------- revocation ---------- */

  /** A revocation marks the license it names and nothing else; only from an update can it become active again. */
  lemma RevokeTakesHold(s: State, tenant: Id, key: Id)
    requires Enabled(s, Revoke(tenant, key))
    ensures var s' := Exec(s, Revoke(tenant, key));
            && s'.acts == s.acts && s'.licenses.Keys == s.licenses.Keys
            && forall l | l in s.licenses ::
                 s'.licenses[l] == if s.licenses[l].tenant == tenant && s.licenses[l].key == key && !s.licenses[l].deleted
                                   then s.licenses[l].(status := Revoked) else s.licenses[l]
  {
  }

  predicate NamesLicense(step: Step, tenant: Id, key: Id) {
    step.Update? && step.tenant == tenant && step.key == key
  }

  /** The license is there under this name and is not active. */
  ghost predicate Inactive(s: State, lid: Id, tenant: Id, key: Id) {
    && lid in s.licenses && s.licenses[lid].status != Active
    && s.licenses[lid].tenant == tenant && s.licenses[lid].key == key
  }

  ghost predicate NoNewRows(s: State, s': State, lid: Id) {
    forall a | a in s'.acts && s'.acts[a].license == lid :: a in s.acts && s.acts[a].license == lid
  }

  lemma StepKeepsInactive(s: State, step: Step, lid: Id, tenant: Id, key: Id)
    requires TxsOk(s) && Inactive(s, lid, tenant, key) && !NamesLicense(step, tenant, key)
    ensures Inactive(Exec(s, step), lid, tenant, key) && NoNewRows(s, Exec(s, step), lid)
  {
    InactiveRowKept(s, step, lid, tenant, key);
    if !TouchesActs(step) {
      ActsUntouched(s, step);
    } else if Enabled(s, step) && step.Commit? {
      assert TxOk(s, s.txs[step.tx]);
    }
  }

  lemma InactiveRowKept(s: State, step: Step, lid: Id, tenant: Id, key: Id)
    requires Inactive(s, lid, tenant, key) && !NamesLicense(step, tenant, key)
    ensures Inactive(Exec(s, step), lid, tenant, key)
  {
  }

  /**
   Once a license row is revoked, no new activation row appears for it in any continuation, whatever
   transactions are already under way, until an update names that license.
   */
  lemma {:induction false} NoActivationAfterRevoke(s: State, steps: seq<Step>, lid: Id, tenant: Id, key: Id)
    requires Inv(s) && Inactive(s, lid, tenant, key)
    requires forall i | 0 <= i < |steps| :: !NamesLicense(steps[i], tenant, key)
    ensures Inactive(Run(s, steps), lid, tenant, key) && NoNewRows(s, Run(s, steps), lid)
    decreases |steps|
  {
    if steps != [] {
      var s1 := Exec(s, steps[0]);
      StepKeepsInv(s, steps[0]);
      StepKeepsInactive(s, steps[0], lid, tenant, key);
      NoActivationAfterRevoke(s1, steps[1..], lid, tenant, key);
    }
  }

  /** An update sets seats, status and expiry of the license it names, and changes nothing else. */
  lemma UpdateTakesHold(s: State, tenant: Id, key: Id, seats: int, status: Status, expiresAt: Option<Time>)
    requires Enabled(s, Update(tenant, key, seats, status, expiresAt))
    ensures var s' := Exec(s, Update(tenant, key, seats, status, expiresAt));
            && s'.acts == s.acts && s'.licenses.Keys == s.licenses.Keys
            && forall l | l in s.licenses ::
                 var was, row := s.licenses[l], s'.licenses[l];
                 if was.tenant == tenant && was.key == key && !was.deleted
                 then row == LicenseRow(tenant, key, seats, status, expiresAt, false, was.usageUsed, was.usageLimit)
                 else row == was
  {
  }

  /** The license is there under this name, its expiry has passed, and no transaction is past the check of it. */
  ghost predicate Lapsed(s: State, lid: Id, tenant: Id, key: Id) {
    && lid in s.licenses && s.licenses[lid].tenant == tenant && s.licenses[lid].key == key
    && s.licenses[lid].expiresAt.Some? && s.licenses[lid].expiresAt.value < s.now
    && forall t | t in s.txs && Holds(s.txs[t]) == Some(lid) :: !PastCheck(s.txs[t])
  }

  lemma StepKeepsLapsed(s: State, step: Step, lid: Id, tenant: Id, key: Id)
    requires TxsOk(s) && Lapsed(s, lid, tenant, key) && !NamesLicense(step, tenant, key)
    ensures Lapsed(Exec(s, step), lid, tenant, key) && NoNewRows(s, Exec(s, step), lid)
  {
    LapsedRowKept(s, step, lid, tenant, key);
    NoneIsPast(s, step, lid, tenant, key);
    if !TouchesActs(step) {
      ActsUntouched(s, step);
    }
  }

  lemma LapsedRowKept(s: State, step: Step, lid: Id, tenant: Id, key: Id)
    requires Lapsed(s, lid, tenant, key) && !NamesLicense(step, tenant, key)
    ensures var s' := Exec(s, step);
            lid in s'.licenses && s'.licenses[lid].tenant == tenant && s'.licenses[lid].key == key && s.now <= s'.now
            && s'.licenses[lid].expiresAt == s.licenses[lid].expiresAt
  {
  }

  predicate PastCheck(tx: Tx) {
    tx.Checked? || tx.Counted? || tx.Inserted?
  }

  predicate Advances(step: Step) {
    step.CheckRow? || step.CountSeats? || step.Decide?
  }

  lemma OthersAdvanceNone(s: State, step: Step, t: Id)
    requires !Advances(step) && t in Exec(s, step).txs && PastCheck(Exec(s, step).txs[t])
    ensures t in s.txs && s.txs[t] == Exec(s, step).txs[t]
  {
  }

  lemma CheckAdvances(s: State, u: Id, t: Id)
    requires Enabled(s, CheckRow(u))
    ensures var s' := Apply(s, CheckRow(u));
            t in s'.txs && PastCheck(s'.txs[t]) ==>
              && t in s.txs && Holds(s.txs[t]) == Holds(s'.txs[t])
              && (PastCheck(s.txs[t]) || (s.txs[t].Locked? && !SeatProtocol.IsExpired(s.txs[t].snap.expiresAt, s.now)))
  {
  }

  lemma CountAdvances(s: State, u: Id, existing: Option<Id>, t: Id)
    requires Enabled(s, CountSeats(u, existing))
    ensures var s' := Apply(s, CountSeats(u, existing));
            t in s'.txs && PastCheck(s'.txs[t]) ==> t in s.txs && Holds(s.txs[t]) == Holds(s'.txs[t]) && PastCheck(s.txs[t])
  {
  }

  lemma DecideAdvances(s: State, u: Id, t: Id)
    requires Enabled(s, Decide(u))
    ensures var s' := Apply(s, Decide(u));
            t in s'.txs && PastCheck(s'.txs[t]) ==> t in s.txs && Holds(s.txs[t]) == Holds(s'.txs[t]) && PastCheck(s.txs[t])
  {
  }

  /** Who is past the check of a row was past it before, or passes it now. */
  lemma AdvanceByOne(s: State, step: Step, t: Id)
    requires Advances(step) && t in Exec(s, step).txs && PastCheck(Exec(s, step).txs[t])
    ensures t in s.txs && Holds(s.txs[t]) == Holds(Exec(s, step).txs[t])
    ensures PastCheck(s.txs[t]) || (s.txs[t].Locked? && !SeatProtocol.IsExpired(s.txs[t].snap.expiresAt, s.now))
  {
    if Enabled(s, step) {
      match step
      case CheckRow(u) => CheckAdvances(s, u, t);
      case CountSeats(u, existing) => CountAdvances(s, u, existing, t);
      case Decide(u) => DecideAdvances(s, u, t);
    }
  }

  lemma NoneIsPast(s: State, step: Step, lid: Id, tenant: Id, key: Id)
    requires TxsOk(s) && Lapsed(s, lid, tenant, key)
    ensures var s' := Exec(s, step); forall t | t in s'.txs && Holds(s'.txs[t]) == Some(lid) :: !PastCheck(s'.txs[t])
  {
    var s' := Exec(s, step);
    forall t | t in s'.txs && Holds(s'.txs[t]) == Some(lid) ensures !PastCheck(s'.txs[t]) {
      if PastCheck(s'.txs[t]) {
        if Advances(step) {
          AdvanceByOne(s, step, t);
        } else {
          OthersAdvanceNone(s, step, t);
        }
      }
    }
  }

  /** Once an update has set the expiry of a license to the past, no new activation row appears for it until another update names it. */
  lemma {:induction false} NoActivationAfterExpiry(s: State, steps: seq<Step>, lid: Id, tenant: Id, key: Id)
    requires Inv(s) && Lapsed(s, lid, tenant, key)
    requires forall i | 0 <= i < |steps| :: !NamesLicense(steps[i], tenant, key)
    ensures Lapsed(Run(s, steps), lid, tenant, key) && NoNewRows(s, Run(s, steps), lid)
    decreases |steps|
  {
    if steps != [] {
      StepKeepsInv(s, steps[0]);
      StepKeepsLapsed(s, steps[0], lid, tenant, key);
      NoActivationAfterExpiry(Exec(s, steps[0]), steps[1..], lid, tenant, key);
    }
  }

  /** The update that does it: from there on every run is one of those above. */
  lemma UpdateShuts(s: State, lid: Id, tenant: Id, key: Id, seats: int, status: Status, expiresAt: Option<Time>, steps: seq<Step>)
    requires Inv(s) && Enabled(s, Update(tenant, key, seats, status, expiresAt))
    requires lid in s.licenses && Matches(s.licenses[lid], tenant, key)
    requires status != Active || (expiresAt.Some? && expiresAt.value < s.now)
    requires forall i | 0 <= i < |steps| :: !NamesLicense(steps[i], tenant, key)
    ensures NoNewRows(s, Run(Exec(s, Update(tenant, key, seats, status, expiresAt)), steps), lid)
  {
    var step := Update(tenant, key, seats, status, expiresAt);
    UpdateTakesHold(s, tenant, key, seats, status, expiresAt);
    StepKeepsInv(s, step);
    if status != Active {
      NoActivationAfterRevoke(Exec(s, step), steps, lid, tenant, key);
    } else {
      assert Lapsed(Exec(s, step), lid, tenant, key) by {
        assert lid !in s.locks;
      }
      NoActivationAfterExpiry(Exec(s, step), steps, lid, tenant, key);
    }
  }

  /* ---------- metered usage ---------- */

  lemma {:induction false} RunKeepsUsage(s: State, steps: seq<Step>)
    requires Inv(s) && UsageOk(s)
    ensures UsageOk(Run(s, steps))
    decreases |steps|
  {
    if steps != [] {
      StepKeepsInv(s, steps[0]);
      StepKeepsUsage(s, steps[0]);
      RunKeepsUsage(Exec(s, steps[0]), steps[1..]);
    }
  }

  /** Conservation: a license's running total is always the sum of its committed usage records. */
  lemma UsageIsConserved(s0: State, steps: seq<Step>, lid: Id)
    requires Init(s0) && lid in Run(s0, steps).licenses
    ensures Run(s0, steps).licenses[lid].usageUsed == UsageSum(Run(s0, steps).usage, lid)
  {
    InitHasInv(s0);
    RunKeepsUsage(s0, steps);
  }
}
