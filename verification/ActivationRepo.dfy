/**
 The activation repository's methods, in their own form, each run without interference. Every call is
 shown to be a run of the seat protocol, so all that holds of every run holds of these methods too.
 */
module ActivationRepo {
  import opened Common
  import opened Domain
  import opened SeatProtocol
  import opened SeatInvariant

  lemma {:induction false} RunAppend(s: State, steps: seq<Step>, step: Step)
    ensures Run(s, steps + [step]) == Exec(Run(s, steps), step)
    decreases |steps|
  {
    if steps == [] {
      assert [] + [step] == [step];
      assert Run(s, [step]) == Run(Exec(s, step), []);
    } else {
      assert (steps + [step])[1..] == steps[1..] + [step];
      RunAppend(Exec(s, steps[0]), steps[1..], step);
    }
  }

  /** A statement of transaction `t` after its first, other than giving up. */
  predicate OwnStep(step: Step, t: Id) {
    match step
    case LockRow(tx, _) => tx == t
    case LockMiss(tx) => tx == t
    case CheckRow(tx) => tx == t
    case CountSeats(tx, _) => tx == t
    case Decide(tx) => tx == t
    case Commit(tx) => tx == t
    case UseCommit(tx) => tx == t
    case _ => false
  }

  ghost predicate OwnSteps(steps: seq<Step>, t: Id) {
    forall i | 0 <= i < |steps| :: OwnStep(steps[i], t)
  }

  /** Transaction `t` alone, begun by `first` and never aborted, takes the database from `s` to `s'`. */
  ghost predicate Reaches(s: State, first: Step, t: Id, s': State) {
    exists steps :: OwnSteps(steps, t) && Run(Exec(s, first), steps) == s'
  }

  lemma ReachOne(s: State, first: Step, t: Id, s': State)
    requires s' == Exec(s, first)
    ensures Reaches(s, first, t, s')
  {
    assert OwnSteps([], t) && Run(s', []) == s';
  }

  lemma ReachStep(s: State, first: Step, t: Id, s1: State, step: Step, s2: State)
    requires Reaches(s, first, t, s1) && OwnStep(step, t) && s2 == Exec(s1, step)
    ensures Reaches(s, first, t, s2)
  {
    var steps :| OwnSteps(steps, t) && Run(Exec(s, first), steps) == s1;
    RunAppend(Exec(s, first), steps, step);
    assert OwnSteps(steps + [step], t);
  }

  /** The database when `t` has ended with outcome `r`. */
  ghost function Closed(s: State, t: Id, r: Outcome): State {
    s.(txs := s.txs[t := Ended(r)])
  }

  /** Such a run ends transaction `t` with outcome `r`, leaving the tables as in `s'`. */
  ghost predicate ProtocolRun(s: State, first: Step, t: Id, s': State, r: Outcome) {
    Reaches(s, first, t, Closed(s', t, r))
  }

  ghost predicate Idle(s: State) {
    s.locks == map[] && s.txs == map[]
  }

  /** The database while the one transaction `t` holds `lid`. */
  ghost function Mid(s: State, t: Id, lid: Id, tx: Tx): State {
    s.(locks := map[lid := t], txs := map[t := tx])
  }

  function SnapshotOf(lid: Id, row: LicenseRow): Snapshot {
    Snapshot(lid, row.seatsTotal, row.status, row.expiresAt)
  }

  /* ---------- the statements one by one ---------- */

  ghost predicate Ready(s: State, t: Id, req: Request, lid: Id) {
    Idle(s) && t !in s.acts && lid in s.licenses && Matches(s.licenses[lid], req.tenant, req.key)
  }

  ghost function Began(s: State, t: Id, req: Request): State {
    s.(txs := map[t := Begun(req)])
  }

  lemma OpenExec(s: State, t: Id, req: Request)
    requires Idle(s) && t !in s.acts
    ensures Exec(s, Begin(t, req)) == Began(s, t, req)
    ensures forall lid | Ready(s, t, req, lid) ::
              Exec(Began(s, t, req), LockRow(t, lid)) == Mid(s, t, lid, Locked(req, SnapshotOf(lid, s.licenses[lid])))
    ensures (forall l | l in s.licenses :: !Matches(s.licenses[l], req.tenant, req.key)) ==>
              Exec(Began(s, t, req), LockMiss(t)) == Closed(s, t, Failed(NotFound))
  {
  }

  lemma EndsIdle(s: State, t: Id, lid: Id, tx: Tx, r: Outcome)
    requires Idle(s) && Holds(tx) == Some(lid)
    ensures End(Mid(s, t, lid, tx), t, r) == Closed(s, t, r)
  {
    assert map[lid := t] - {lid} == map[];
    assert map[t := tx][t := Ended(r)] == map[t := Ended(r)];
  }

  ghost predicate Admissible(s: State, t: Id, req: Request, lid: Id) {
    Ready(s, t, req, lid) && s.licenses[lid].status == Active && !IsExpired(s.licenses[lid].expiresAt, s.now)
  }

  /** The check of the locked row. */
  lemma CheckExec(s: State, t: Id, req: Request, lid: Id)
    requires Ready(s, t, req, lid)
    ensures var row, snap := s.licenses[lid], SnapshotOf(lid, s.licenses[lid]);
            Exec(Mid(s, t, lid, Locked(req, snap)), CheckRow(t))
              == if row.status != Active then Closed(s, t, Failed(LicenseRevoked))
                 else if IsExpired(row.expiresAt, s.now) then Closed(s, t, Failed(LicenseExpired))
                 else Mid(s, t, lid, Checked(req, snap, s.now))
  {
    var tx := Locked(req, SnapshotOf(lid, s.licenses[lid]));
    EndsIdle(s, t, lid, tx, Failed(LicenseRevoked));
    EndsIdle(s, t, lid, tx, Failed(LicenseExpired));
  }

  ghost function CountedTx(s: State, req: Request, lid: Id, existing: Option<Id>): Tx
    requires lid in s.licenses
  {
    Counted(req, SnapshotOf(lid, s.licenses[lid]), s.now, ActiveCount(s, lid), existing)
  }

  lemma CountExec(s: State, t: Id, req: Request, lid: Id, existing: Option<Id>)
    requires lid in s.licenses
    requires existing.None? ==> !HasActive(s.acts, lid, req.client)
    requires existing.Some? ==> IsActiveFor(s.acts, existing.value, lid, req.client)
    ensures var mid := Mid(s, t, lid, Checked(req, SnapshotOf(lid, s.licenses[lid]), s.now));
            Exec(mid, CountSeats(t, existing)) == Mid(s, t, lid, CountedTx(s, req, lid, existing))
  {
  }

  ghost function InsertedTx(s: State, req: Request, lid: Id): Tx
    requires lid in s.licenses
  {
    var n := ActiveCount(s, lid);
    Inserted(req, SnapshotOf(lid, s.licenses[lid]), s.now, n, RemainingAfterInsert(s.licenses[lid].seatsTotal, n))
  }

  /** The decision once seats are counted. */
  lemma DecideExec(s: State, t: Id, req: Request, lid: Id, existing: Option<Id>)
    requires Idle(s) && t !in s.acts && lid in s.licenses && (existing.None? ==> !HasActive(s.acts, lid, req.client))
    ensures var total, n := s.licenses[lid].seatsTotal, ActiveCount(s, lid);
            Exec(Mid(s, t, lid, CountedTx(s, req, lid, existing)), Decide(t))
              == if existing.Some? then Closed(s, t, Repeat(existing.value, lid, RemainingForRepeat(total, n)))
                 else if !SeatFree(total, n) then Closed(s, t, Failed(SeatLimitReached))
                 else Mid(s, t, lid, InsertedTx(s, req, lid))
  {
    var tx := CountedTx(s, req, lid, existing);
    if existing.Some? {
      EndsIdle(s, t, lid, tx, Repeat(existing.value, lid, RemainingForRepeat(s.licenses[lid].seatsTotal, ActiveCount(s, lid))));
    } else {
      EndsIdle(s, t, lid, tx, Failed(SeatLimitReached));
    }
  }

  lemma CommitExec(s: State, t: Id, lid: Id, tx: Tx)
    requires Idle(s) && tx.Inserted? && tx.snap.lid == lid
    ensures var e := s.(acts := s.acts[t := Activation(lid, tx.req.tenant, tx.req.client, true)]);
            Exec(Mid(s, t, lid, tx), Commit(t)) == Closed(e, t, Fresh(t, lid, tx.remaining))
  {
    EndsIdle(s, t, lid, tx, Fresh(t, lid, tx.remaining));
  }

  /* ---------- whole calls ---------- */

  lemma MissRun(s: State, t: Id, req: Request)
    requires Idle(s) && t !in s.acts && forall l | l in s.licenses :: !Matches(s.licenses[l], req.tenant, req.key)
    ensures ProtocolRun(s, Begin(t, req), t, s, Failed(NotFound))
  {
    OpenExec(s, t, req);
    ReachOne(s, Begin(t, req), t, Began(s, t, req));
    ReachStep(s, Begin(t, req), t, Began(s, t, req), LockMiss(t), Closed(s, t, Failed(NotFound)));
  }

  lemma LockedRun(s: State, t: Id, req: Request, lid: Id)
    requires Ready(s, t, req, lid)
    ensures Reaches(s, Begin(t, req), t, Mid(s, t, lid, Locked(req, SnapshotOf(lid, s.licenses[lid]))))
  {
    OpenExec(s, t, req);
    ReachOne(s, Begin(t, req), t, Began(s, t, req));
    ReachStep(s, Begin(t, req), t, Began(s, t, req), LockRow(t, lid), Mid(s, t, lid, Locked(req, SnapshotOf(lid, s.licenses[lid]))));
  }

  lemma RefusedRun(s: State, t: Id, req: Request, lid: Id, r: Outcome)
    requires Ready(s, t, req, lid)
    requires || (s.licenses[lid].status != Active && r == Failed(LicenseRevoked))
             || (s.licenses[lid].status == Active && IsExpired(s.licenses[lid].expiresAt, s.now) && r == Failed(LicenseExpired))
    ensures ProtocolRun(s, Begin(t, req), t, s, r)
  {
    LockedRun(s, t, req, lid);
    CheckExec(s, t, req, lid);
    ReachStep(s, Begin(t, req), t, Mid(s, t, lid, Locked(req, SnapshotOf(lid, s.licenses[lid]))), CheckRow(t), Closed(s, t, r));
  }

  lemma CheckedRun(s: State, t: Id, req: Request, lid: Id)
    requires Admissible(s, t, req, lid)
    ensures Reaches(s, Begin(t, req), t, Mid(s, t, lid, Checked(req, SnapshotOf(lid, s.licenses[lid]), s.now)))
  {
    var snap := SnapshotOf(lid, s.licenses[lid]);
    LockedRun(s, t, req, lid);
    CheckExec(s, t, req, lid);
    ReachStep(s, Begin(t, req), t, Mid(s, t, lid, Locked(req, snap)), CheckRow(t), Mid(s, t, lid, Checked(req, snap, s.now)));
  }

  lemma CountedRun(s: State, t: Id, req: Request, lid: Id, existing: Option<Id>)
    requires Admissible(s, t, req, lid)
    requires existing.None? ==> !HasActive(s.acts, lid, req.client)
    requires existing.Some? ==> IsActiveFor(s.acts, existing.value, lid, req.client)
    ensures Reaches(s, Begin(t, req), t, Mid(s, t, lid, CountedTx(s, req, lid, existing)))
  {
    CheckedRun(s, t, req, lid);
    CountExec(s, t, req, lid, existing);
    ReachStep(s, Begin(t, req), t, Mid(s, t, lid, Checked(req, SnapshotOf(lid, s.licenses[lid]), s.now)),
              CountSeats(t, existing), Mid(s, t, lid, CountedTx(s, req, lid, existing)));
  }

  lemma RepeatRun(s: State, t: Id, req: Request, lid: Id, a: Id)
    requires Admissible(s, t, req, lid) && IsActiveFor(s.acts, a, lid, req.client)
    ensures ProtocolRun(s, Begin(t, req), t, s, Repeat(a, lid, RemainingForRepeat(s.licenses[lid].seatsTotal, ActiveCount(s, lid))))
  {
    CountedRun(s, t, req, lid, Some(a));
    DecideExec(s, t, req, lid, Some(a));
    ReachStep(s, Begin(t, req), t, Mid(s, t, lid, CountedTx(s, req, lid, Some(a))), Decide(t),
              Closed(s, t, Repeat(a, lid, RemainingForRepeat(s.licenses[lid].seatsTotal, ActiveCount(s, lid)))));
  }

  lemma FullRun(s: State, t: Id, req: Request, lid: Id)
    requires Admissible(s, t, req, lid) && !HasActive(s.acts, lid, req.client)
    requires !SeatFree(s.licenses[lid].seatsTotal, ActiveCount(s, lid))
    ensures ProtocolRun(s, Begin(t, req), t, s, Failed(SeatLimitReached))
  {
    CountedRun(s, t, req, lid, None);
    DecideExec(s, t, req, lid, None);
    ReachStep(s, Begin(t, req), t, Mid(s, t, lid, CountedTx(s, req, lid, None)), Decide(t), Closed(s, t, Failed(SeatLimitReached)));
  }

  lemma FreshRun(s: State, t: Id, req: Request, lid: Id)
    requires Admissible(s, t, req, lid) && !HasActive(s.acts, lid, req.client)
    requires SeatFree(s.licenses[lid].seatsTotal, ActiveCount(s, lid))
    ensures ProtocolRun(s, Begin(t, req), t, s.(acts := s.acts[t := Activation(lid, req.tenant, req.client, true)]),
              Fresh(t, lid, RemainingAfterInsert(s.licenses[lid].seatsTotal, ActiveCount(s, lid))))
  {
    var tx := InsertedTx(s, req, lid);
    CountedRun(s, t, req, lid, None);
    DecideExec(s, t, req, lid, None);
    ReachStep(s, Begin(t, req), t, Mid(s, t, lid, CountedTx(s, req, lid, None)), Decide(t), Mid(s, t, lid, tx));
    CommitExec(s, t, lid, tx);
    ReachStep(s, Begin(t, req), t, Mid(s, t, lid, tx), Commit(t),
              Closed(s.(acts := s.acts[t := Activation(lid, req.tenant, req.client, true)]), t, Fresh(t, lid, tx.remaining)));
  }

  /** The tables after an answer: only a fresh activation adds its row. */
  ghost function After(s: State, req: Request, t: Id, r: Outcome): State {
    if r.Fresh? then s.(acts := s.acts[t := Activation(r.lid, req.tenant, req.client, true)]) else s
  }

  /** Every answer of the case analysis is the outcome of a run of the protocol. */
  lemma AnswerIsARun(s: State, lid: Id, req: Request, t: Id, r: Outcome)
    requires Ready(s, t, req, lid) && AnsweredFor(s, lid, req, t, r)
    ensures ProtocolRun(s, Begin(t, req), t, After(s, req, t, r), r)
  {
    var row, n := s.licenses[lid], ActiveCount(s, lid);
    if row.status != Active || IsExpired(row.expiresAt, s.now) {
      RefusedRun(s, t, req, lid, r);
    } else if HasActive(s.acts, lid, req.client) {
      RepeatRun(s, t, req, lid, r.id);
    } else if SeatFree(row.seatsTotal, n) {
      FreshRun(s, t, req, lid);
    } else {
      FullRun(s, t, req, lid);
    }
  }

  /** The database after `units` were metered on a license. */
  ghost function Metered(s: State, t: Id, lid: Id, units: int): State
    requires lid in s.licenses
  {
    var row := s.licenses[lid];
    s.(licenses := s.licenses[lid := row.(usageUsed := row.usageUsed + units)],
       usage := s.usage[t := Usage(lid, units)])
  }

  lemma UseBeginExec(s: State, t: Id, lid: Id, units: int)
    requires Idle(s) && t !in s.usage && lid in s.licenses && !s.licenses[lid].deleted && units > 0
    ensures Exec(s, UseBegin(t, lid, units)) == Mid(s, t, lid, Using(lid, units, s.licenses[lid].usageUsed + units))
  {
  }

  lemma UseCommitExec(s: State, t: Id, lid: Id, units: int, r: Outcome)
    requires Idle(s) && lid in s.licenses
    requires r == Recorded(s.licenses[lid].usageUsed + units, s.licenses[lid].usageLimit)
    ensures Exec(Mid(s, t, lid, Using(lid, units, r.total)), UseCommit(t)) == Closed(Metered(s, t, lid, units), t, r)
  {
    EndsIdle(s, t, lid, Using(lid, units, r.total), r);
  }

  lemma UseRun(s: State, t: Id, lid: Id, units: int, r: Outcome)
    requires Idle(s) && t !in s.usage && lid in s.licenses && !s.licenses[lid].deleted && units > 0
    requires r == Recorded(s.licenses[lid].usageUsed + units, s.licenses[lid].usageLimit)
    ensures ProtocolRun(s, UseBegin(t, lid, units), t, Metered(s, t, lid, units), r)
  {
    var mid, first := Mid(s, t, lid, Using(lid, units, r.total)), UseBegin(t, lid, units);
    UseBeginExec(s, t, lid, units);
    ReachOne(s, first, t, mid);
    UseCommitExec(s, t, lid, units, r);
    ReachStep(s, first, t, mid, UseCommit(t), Closed(Metered(s, t, lid, units), t, r));
  }

  ghost predicate Consistent(s: State) {
    TablesOk(s) && UsageOk(s)
  }

  lemma ReleaseKeepsTables(s: State, rows: set<Id>)
    requires Consistent(s)
    ensures Consistent(s.(acts := ReleaseRows(s.acts, rows)))
  {
  }

  lemma UseKeepsTables(s: State, t: Id, lid: Id, units: int)
    requires Consistent(s) && t !in s.usage && lid in s.licenses
    ensures Consistent(Metered(s, t, lid, units))
  {
    var s' := Metered(s, t, lid, units);
    assert s'.usage - {t} == s.usage;
    forall l | l in s'.licenses ensures s'.licenses[l].usageUsed == UsageSum(s'.usage, l) {
      UsageSumRemove(s'.usage, t, l);
    }
  }

  /** The answer for a request whose license row is `lid`, case by case. */
  ghost predicate AnsweredFor(s: State, lid: Id, req: Request, t: Id, r: Outcome)
    requires lid in s.licenses
  {
    var row, n := s.licenses[lid], ActiveCount(s, lid);
    if row.status != Active then r == Failed(LicenseRevoked)
    else if IsExpired(row.expiresAt, s.now) then r == Failed(LicenseExpired)
    else if HasActive(s.acts, lid, req.client) then
      && r.Repeat? && r.lid == lid && IsActiveFor(s.acts, r.id, lid, req.client)
      && (if row.seatsTotal == -1 then r.remaining == -1 else r.remaining + n == row.seatsTotal)
    else if row.seatsTotal != -1 && n >= row.seatsTotal then r == Failed(SeatLimitReached)
    else
      && r.Fresh? && r.id == t && r.lid == lid
      && (if row.seatsTotal == -1 then r.remaining == -1 else r.remaining + n + 1 == row.seatsTotal)
  }

  /**
   Every answer adds up: what is reported as remaining and the rows active after the call, a new one included,
   make up the seats of the license, unless they are unlimited.
   */
  lemma AnswerAddsUp(s: State, lid: Id, req: Request, t: Id, r: Outcome)
    requires t !in s.acts && lid in s.licenses && AnsweredFor(s, lid, req, t, r) && (r.Repeat? || r.Fresh?)
    ensures var total, active := s.licenses[lid].seatsTotal, ActiveCount(After(s, req, t, r), lid);
            if total == -1 then r.remaining == -1 else r.remaining + active == total
    ensures r.Fresh? ==> r.remaining >= 0 || s.licenses[lid].seatsTotal == -1
    ensures IsActiveFor(After(s, req, t, r).acts, r.id, lid, req.client)
  {
    if r.Fresh? {
      var acts := After(s, req, t, r).acts;
      assert ActiveOf(acts, lid) == ActiveOf(s.acts, lid) + {t};
    }
  }

  /**
   The step of the protocol that releases by client: it found something exactly when the client had an active
   row of a matching license, otherwise changed nothing, and leaves the client none.
   */
  ghost predicate Releases(s: State, s': State, tenant: Id, key: Id, client: Id, found: bool) {
    && s' == Exec(s, SeatProtocol.ReleaseByClient(tenant, key, client))
    && (found <==> exists lid, a :: lid in s.licenses && Matches(s.licenses[lid], tenant, key) && IsActiveFor(s.acts, a, lid, client))
    && (!found ==> s'.acts == s.acts)
    && (forall lid | lid in s.licenses && Matches(s.licenses[lid], tenant, key) :: !HasActive(s'.acts, lid, client))
    && s'.acts.Keys == s.acts.Keys
    && forall a | a in s.acts && !(s.acts[a].client == client && s.acts[a].license in s.licenses
                                   && Matches(s.licenses[s.acts[a].license], tenant, key)) :: s'.acts[a] == s.acts[a]
  }

  lemma ClientRowsFound(s: State, tenant: Id, key: Id, client: Id)
    ensures var rows := ClientRows(s, tenant, key, client);
            Releases(s, s.(acts := ReleaseRows(s.acts, rows)), tenant, key, client, rows != {})
  {
    var rows := ClientRows(s, tenant, key, client);
    if a :| a in rows {
      assert IsActiveFor(s.acts, a, s.acts[a].license, client);
    } else {
      assert ReleaseRows(s.acts, rows) == s.acts;
    }
    forall lid, a | lid in s.licenses && Matches(s.licenses[lid], tenant, key) && IsActiveFor(s.acts, a, lid, client) ensures a in rows {
    }
  }

  /** Not found exactly when no row matches; otherwise the answer for the row that does. */
  ghost predicate Answered(s: State, req: Request, t: Id, r: Outcome) {
    && (r == Failed(NotFound) <==> forall lid | lid in s.licenses :: !Matches(s.licenses[lid], req.tenant, req.key))
    && (forall lid | lid in s.licenses && Matches(s.licenses[lid], req.tenant, req.key) :: AnsweredFor(s, lid, req, t, r))
  }

  /**
   Every call of `ActivateWithLock`, whatever it answers, is a run of the seat protocol: its transaction
   begins with this very request, is never aborted, and ends with this answer and these tables.
   */
  lemma CallIsARun(s: State, req: Request, t: Id, r: Outcome)
    requires Idle(s) && t !in s.acts && UniqueKeys(s.licenses) && Answered(s, req, t, r)
    ensures ProtocolRun(s, Begin(t, req), t, After(s, req, t, r), r)
  {
    if lid :| lid in s.licenses && Matches(s.licenses[lid], req.tenant, req.key) {
      AnswerIsARun(s, lid, req, t, r);
    } else {
      MissRun(s, t, req);
    }
  }

  lemma AnswerKeepsTables(s: State, lid: Id, req: Request, t: Id, r: Outcome)
    requires Consistent(s) && t !in s.acts && lid in s.licenses && AnsweredFor(s, lid, req, t, r)
    ensures Consistent(After(s, req, t, r))
  {
    if r.Fresh? {
      var acts := After(s, req, t, r).acts;
      assert !HasActive(s.acts, lid, req.client);
      forall a, b | a in acts && b in acts && acts[a].active && acts[b].active && acts[a].license == acts[b].license && acts[a].client == acts[b].client
        ensures a == b
      {
        assert a != t ==> IsActiveFor(s.acts, a, acts[a].license, acts[a].client);
        assert b != t ==> IsActiveFor(s.acts, b, acts[b].license, acts[b].client);
      }
    }
  }

  lemma OneMatch(s: State, req: Request, lid: Id)
    requires UniqueKeys(s.licenses) && lid in s.licenses && Matches(s.licenses[lid], req.tenant, req.key)
    ensures forall other | other in s.licenses && Matches(s.licenses[other], req.tenant, req.key) :: other == lid
  {
  }

  class Repo {
    var licenses: map<Id, LicenseRow>
    var acts: map<Id, Activation>
    var usage: map<Id, Usage>

    /** The database as the protocol sees it when no transaction is under way. */
    ghost function Db(now: Time): State
      reads this
    {
      State(now, licenses, acts, usage, map[], map[])
    }

    ghost predicate Valid()
      reads this
    {
      Consistent(Db(0))
    }

    constructor (licenses: map<Id, LicenseRow>)
      requires Init(State(0, licenses, map[], map[], map[], map[]))
      ensures Valid() && this.licenses == licenses && acts == map[] && usage == map[]
    {
      this.licenses, acts, usage := licenses, map[], map[];
      new;
      InitHasInv(Db(0));
    }

    /** `record.ID` on return is the id of the reported row. */
    method ActivateWithLock(req: Request, recordId: Id, now: Time) returns (r: Outcome)
      requires Valid() && recordId !in acts
      modifies this`acts
      ensures Valid()
      ensures Answered(old(Db(now)), req, recordId, r) && Db(now) == After(old(Db(now)), req, recordId, r)
      ensures r.Repeat? || r.Fresh? ==>
                && r.lid in licenses && IsActiveFor(acts, r.id, r.lid, req.client)
                && var total := licenses[r.lid].seatsTotal;
                   if total == -1 then r.remaining == -1 else r.remaining + |ActiveOf(acts, r.lid)| == total
    {
      ghost var s := Db(now);
      if lid :| lid in licenses && Matches(licenses[lid], req.tenant, req.key) {
        OneMatch(s, req, lid);
        r := Answer(lid, licenses[lid], req, recordId, now);
        if r.Repeat? || r.Fresh? {
          AnswerAddsUp(s, lid, req, recordId, r);
        }
        if r.Fresh? {
          acts := acts[recordId := Activation(lid, req.tenant, req.client, true)];
        }
        AnswerKeepsTables(s, lid, req, recordId, r);
      } else {
        r := Failed(NotFound);
      }
    }

    /** What the transaction decides once it holds the row. */
    method Answer(lid: Id, row: LicenseRow, req: Request, recordId: Id, now: Time) returns (r: Outcome)
      requires lid in licenses && row == licenses[lid]
      ensures AnsweredFor(Db(now), lid, req, recordId, r) && r != Failed(NotFound)
    {
      if row.status != Active {
        return Failed(LicenseRevoked);
      }
      if IsExpired(row.expiresAt, now) {
        return Failed(LicenseExpired);
      }
      var count := |ActiveOf(acts, lid)|;
      if a :| a in acts && IsActiveFor(acts, a, lid, req.client) {
        return Repeat(a, lid, RemainingForRepeat(row.seatsTotal, count));
      }
      if row.seatsTotal != UNLIMITED && count >= row.seatsTotal {
        return Failed(SeatLimitReached);
      }
      return Fresh(recordId, lid, RemainingAfterInsert(row.seatsTotal, count));
    }

    method ReleaseById(id: Id)
      requires Valid()
      modifies this`acts
      ensures Valid() && Db(0) == Exec(old(Db(0)), Release(id))
      ensures acts == if id in old(acts) then old(acts)[id := old(acts)[id].(active := false)] else old(acts)
    {
      ReleaseKeepsTables(Db(0), {id});
      acts := ReleaseRows(acts, {id});
    }

    /** Reports not-found exactly when the client held no active row. */
    method ReleaseByClient(tenant: Id, key: Id, client: Id) returns (found: bool)
      requires Valid()
      modifies this`acts
      ensures Valid() && Releases(old(Db(0)), Db(0), tenant, key, client, found)
    {
      var rows := set a | a in acts && acts[a].client == client && acts[a].active
                          && acts[a].license in licenses && Matches(licenses[acts[a].license], tenant, key);
      found := rows != {};
      assert rows == ClientRows(Db(0), tenant, key, client);
      ClientRowsFound(Db(0), tenant, key, client);
      ReleaseKeepsTables(Db(0), rows);
      acts := ReleaseRows(acts, rows);
    }

    method RecordUsage(lid: Id, units: int, usageId: Id) returns (r: Outcome)
      requires Valid() && usageId !in usage
      modifies this`licenses, this`usage
      ensures Valid()
      ensures r.Recorded? <==> old(lid in licenses && !licenses[lid].deleted && units > 0)
      ensures r.Recorded? ==> Db(0) == Metered(old(Db(0)), usageId, lid, units)
      ensures r.Recorded? ==> r == Recorded(old(licenses[lid].usageUsed) + units, old(licenses[lid].usageLimit))
      ensures !r.Recorded? ==> unchanged(this)
    {
      if lid !in licenses || licenses[lid].deleted || units <= 0 {
        return Failed(NotFound);
      }
      ghost var s := Db(0);
      r := Recorded(licenses[lid].usageUsed + units, licenses[lid].usageLimit);
      UseKeepsTables(s, usageId, lid, units);
      Charge(lid, units, usageId);
    }

    /** The two statements of the metering transaction. */
    method Charge(lid: Id, units: int, usageId: Id)
      requires lid in licenses
      modifies this`licenses, this`usage
      ensures Db(0) == Metered(old(Db(0)), usageId, lid, units)
    {
      var row := licenses[lid];
      licenses := licenses[lid := row.(usageUsed := row.usageUsed + units)];
      usage := usage[usageId := Usage(lid, units)];
    }
  }
}
