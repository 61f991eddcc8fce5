/** The row lock never blocks for good: from every reachable state every transaction can be run to its end. */
module SeatProgress {
  import opened Common
  import opened SeatProtocol
  import opened SeatInvariant
  import opened ActivationRepo

  /** Statements a transaction has left at most. */
  function Rank(tx: Tx): nat {
    match tx
    case Begun(_) => 5
    case Locked(_, _) => 4
    case Checked(_, _, _) => 3
    case Counted(_, _, _, _, _) => 2
    case Inserted(_, _, _, _, _) => 1
    case Using(_, _, _) => 1
    case Ended(_) => 0
  }

  /** The next statement of a lock holder. */
  ghost function Next(s: State, t: Id): Step
    requires t in s.txs && Holds(s.txs[t]).Some?
  {
    match s.txs[t]
    case Locked(_, _) => CheckRow(t)
    case Checked(req, snap, _) =>
      CountSeats(t, if HasActive(s.acts, snap.lid, req.client) then var a :| IsActiveFor(s.acts, a, snap.lid, req.client); Some(a) else None)
    case Counted(_, _, _, _, _) => Decide(t)
    case Inserted(_, _, _, _, _) => Commit(t)
    case Using(_, _, _) => UseCommit(t)
  }

  /** Only this transaction moves, no row is locked anew, and every license keeps its identity. */
  ghost predicate OnlyMoves(s: State, s': State, t: Id) {
    && (forall u | u in s.txs && u != t :: u in s'.txs && s'.txs[u] == s.txs[u])
    && (forall l | l in s'.locks :: l in s.locks)
    && (forall l | l in s.licenses :: l in s'.licenses && SameIdentity(s.licenses[l], s'.licenses[l]))
  }

  predicate SameIdentity(a: LicenseRow, b: LicenseRow) {
    a.tenant == b.tenant && a.key == b.key && a.deleted == b.deleted
  }

  /** The holder of a row got further: it has ended and freed the row, or still holds it. */
  ghost predicate Advances(s: State, s': State, t: Id, lid: Id) {
    && t in s.txs && t in s'.txs && Rank(s'.txs[t]) < Rank(s.txs[t])
    && (if s'.txs[t].Ended? then lid !in s'.locks else Holds(s'.txs[t]) == Some(lid))
    && OnlyMoves(s, s', t)
  }

  lemma EndAdvances(s: State, t: Id, lid: Id, r: Outcome)
    requires t in s.txs && Holds(s.txs[t]) == Some(lid)
    ensures Advances(s, End(s, t, r), t, lid)
  {
  }

  lemma MoveAdvances(s: State, t: Id, lid: Id, tx: Tx)
    requires t in s.txs && Holds(s.txs[t]) == Some(lid) && Holds(tx) == Some(lid) && Rank(tx) < Rank(s.txs[t])
    ensures Advances(s, s.(txs := s.txs[t := tx]), t, lid)
  {
  }

  lemma CheckAdvances(s: State, t: Id)
    requires t in s.txs && s.txs[t].Locked?
    ensures Advances(s, Apply(s, CheckRow(t)), t, s.txs[t].snap.lid)
  {
    var tx := s.txs[t];
    EndAdvances(s, t, tx.snap.lid, Failed(LicenseRevoked));
    EndAdvances(s, t, tx.snap.lid, Failed(LicenseExpired));
    MoveAdvances(s, t, tx.snap.lid, Checked(tx.req, tx.snap, s.now));
  }

  lemma CountAdvances(s: State, t: Id, existing: Option<Id>)
    requires t in s.txs && s.txs[t].Checked? && Enabled(s, CountSeats(t, existing))
    ensures Advances(s, Apply(s, CountSeats(t, existing)), t, s.txs[t].snap.lid)
  {
    var tx := s.txs[t];
    MoveAdvances(s, t, tx.snap.lid, Counted(tx.req, tx.snap, tx.at, ActiveCount(s, tx.snap.lid), existing));
  }

  lemma DecideAdvances(s: State, t: Id)
    requires t in s.txs && s.txs[t].Counted?
    ensures Advances(s, ApplyDecide(s, t), t, s.txs[t].snap.lid)
  {
    var tx := s.txs[t];
    var total, lid := tx.snap.seatsTotal, tx.snap.lid;
    if tx.existing.Some? {
      EndAdvances(s, t, lid, Repeat(tx.existing.value, lid, RemainingForRepeat(total, tx.count)));
    } else {
      EndAdvances(s, t, lid, Failed(SeatLimitReached));
      EndAdvances(s, t, lid, Failed(InsertFailed));
      MoveAdvances(s, t, lid, Inserted(tx.req, tx.snap, tx.at, tx.count, RemainingAfterInsert(total, tx.count)));
    }
  }

  lemma CommitAdvances(s: State, t: Id)
    requires t in s.txs && s.txs[t].Inserted?
    ensures Advances(s, Apply(s, Commit(t)), t, s.txs[t].snap.lid)
  {
    EndAdvances(s, t, s.txs[t].snap.lid, Fresh(t, s.txs[t].snap.lid, s.txs[t].remaining));
  }

  lemma UseAdvances(s: State, t: Id)
    requires t in s.txs && s.txs[t].Using? && s.txs[t].lid in s.licenses
    ensures Advances(s, Apply(s, UseCommit(t)), t, s.txs[t].lid)
  {
    EndAdvances(s, t, s.txs[t].lid, Recorded(s.txs[t].total, s.licenses[s.txs[t].lid].usageLimit));
  }

  /** The holder of a row is never blocked. */
  lemma HolderMoves(s: State, t: Id)
    requires TxsOk(s) && t in s.txs && Holds(s.txs[t]).Some?
    ensures Enabled(s, Next(s, t)) && OwnStep(Next(s, t), t) && Advances(s, Exec(s, Next(s, t)), t, Holds(s.txs[t]).value)
  {
    var tx := s.txs[t];
    assert TxOk(s, tx);
    if tx.Locked? {
      CheckAdvances(s, t);
    } else if tx.Checked? {
      CountAdvances(s, t, Next(s, t).existing);
    } else if tx.Counted? {
      DecideAdvances(s, t);
    } else if tx.Inserted? {
      CommitAdvances(s, t);
    } else {
      UseAdvances(s, t);
    }
  }

  lemma MovesCompose(a: State, b: State, c: State, t: Id)
    requires OnlyMoves(a, b, t) && OnlyMoves(b, c, t)
    ensures OnlyMoves(a, c, t)
  {
  }

  /** These steps of the holder alone end it and free its row. */
  ghost predicate Finishes(s: State, steps: seq<Step>, t: Id, lid: Id) {
    var s' := Run(s, steps);
    OwnSteps(steps, t) && Inv(s') && OnlyMoves(s, s', t) && t in s'.txs && s'.txs[t].Ended? && lid !in s'.locks
  }

  lemma OneStepFinishes(s: State, step: Step, t: Id, lid: Id)
    requires OwnStep(step, t) && Inv(Exec(s, step)) && Advances(s, Exec(s, step), t, lid) && Exec(s, step).txs[t].Ended?
    ensures Finishes(s, [step], t, lid)
  {
    assert Run(s, [step]) == Run(Exec(s, step), []);
  }

  lemma OneStepMore(s: State, step: Step, rest: seq<Step>, t: Id, lid: Id)
    requires OwnStep(step, t) && Advances(s, Exec(s, step), t, lid) && Finishes(Exec(s, step), rest, t, lid)
    ensures Finishes(s, [step] + rest, t, lid)
  {
    RunCons(s, step, rest);
    MovesCompose(s, Exec(s, step), Run(Exec(s, step), rest), t);
  }

  /**
   From every state with the invariant, a transaction that holds a row can end on its own, by at most four
   further statements and without aborting, and the row is then free.
   */
  lemma {:induction false} HolderFinishes(s: State, t: Id) returns (steps: seq<Step>)
    requires Inv(s) && t in s.txs && Holds(s.txs[t]).Some?
    ensures |steps| <= Rank(s.txs[t]) && Finishes(s, steps, t, Holds(s.txs[t]).value)
    decreases Rank(s.txs[t])
  {
    var lid := Holds(s.txs[t]).value;
    var step, s1 := HolderSteps(s, t);
    if s1.txs[t].Ended? {
      steps := [step];
      OneStepFinishes(s, step, t, lid);
    } else {
      var rest := HolderFinishes(s1, t);
      steps := [step] + rest;
      OneStepMore(s, step, rest, t, lid);
    }
  }

  lemma HolderSteps(s: State, t: Id) returns (step: Step, s': State)
    requires Inv(s) && t in s.txs && Holds(s.txs[t]).Some?
    ensures OwnStep(step, t) && s' == Exec(s, step) && Inv(s') && Advances(s, s', t, Holds(s.txs[t]).value)
  {
    step := Next(s, t);
    s' := Exec(s, step);
    HolderMoves(s, t);
    StepKeepsInv(s, step);
  }

  lemma RunCons(s: State, step: Step, rest: seq<Step>)
    ensures Run(s, [step] + rest) == Run(Exec(s, step), rest)
  {
    assert ([step] + rest)[1..] == rest;
  }

  lemma {:induction false} RunConcat(s: State, a: seq<Step>, b: seq<Step>)
    ensures Run(s, a + b) == Run(Run(s, a), b)
    decreases |a|
  {
    if a == [] {
      assert a + b == b;
    } else {
      assert (a + b)[1..] == a[1..] + b;
      RunConcat(Exec(s, a[0]), a[1..], b);
    }
  }

  /** The transaction itself, or the one it waits for. */
  ghost predicate StepsOfTwo(steps: seq<Step>, t: Id, u: Id) {
    forall i | 0 <= i < |steps| :: OwnStep(steps[i], t) || OwnStep(steps[i], u)
  }

  /** A transaction that waits for a free row takes it and ends. */
  lemma WaiterFinishes(s: State, t: Id, lid: Id) returns (steps: seq<Step>)
    requires Inv(s) && Enabled(s, LockRow(t, lid))
    ensures OwnSteps(steps, t)
    ensures var s' := Run(s, steps); t in s'.txs && s'.txs[t].Ended?
  {
    var s1 := Exec(s, LockRow(t, lid));
    StepKeepsInv(s, LockRow(t, lid));
    var rest := HolderFinishes(s1, t);
    steps := [LockRow(t, lid)] + rest;
    RunCons(s, LockRow(t, lid), rest);
  }

  /** One that finds no row to wait for ends at once. */
  lemma MissFinishes(s: State, t: Id)
    requires Enabled(s, LockMiss(t))
    ensures var s' := Run(s, [LockMiss(t)]); t in s'.txs && s'.txs[t].Ended?
  {
    assert Run(s, [LockMiss(t)]) == Run(Exec(s, LockMiss(t)), []);
  }

  /** One that waits for a locked row takes it when the holder has ended. */
  lemma BlockedFinishes(s: State, t: Id, lid: Id, u: Id) returns (steps: seq<Step>)
    requires Inv(s) && t in s.txs && s.txs[t].Begun? && lid in s.locks && s.locks[lid] == u
    requires lid in s.licenses && Matches(s.licenses[lid], s.txs[t].req.tenant, s.txs[t].req.key)
    ensures StepsOfTwo(steps, t, u)
    ensures var s' := Run(s, steps); t in s'.txs && s'.txs[t].Ended?
  {
    var first := HolderFinishes(s, u);
    var rest := WaiterFinishes(Run(s, first), t, lid);
    RunConcat(s, first, rest);
    steps := first + rest;
  }

  lemma CanEnd(s: State, t: Id) returns (steps: seq<Step>, u: Id)
    requires Inv(s) && t in s.txs
    ensures StepsOfTwo(steps, t, u)
    ensures var s' := Run(s, steps); t in s'.txs && s'.txs[t].Ended?
  {
    u := t;
    if s.txs[t].Ended? {
      steps := [];
    } else if Holds(s.txs[t]).Some? {
      steps := HolderFinishes(s, t);
    } else if lid :| lid in s.licenses && Matches(s.licenses[lid], s.txs[t].req.tenant, s.txs[t].req.key) {
      if lid in s.locks {
        u := s.locks[lid];
        steps := BlockedFinishes(s, t, lid, u);
      } else {
        steps := WaiterFinishes(s, t, lid);
      }
    } else {
      steps := [LockMiss(t)];
      MissFinishes(s, t);
    }
  }

  /**
   There is no deadlock: from every reachable state every transaction can be run to its end, without aborting
   any, by steps of itself and of the one transaction that holds the row it waits for.
   */
  lemma EveryTransactionCanEnd(init: State, run: seq<Step>, t: Id) returns (steps: seq<Step>, u: Id)
    requires Init(init) && t in Run(init, run).txs
    ensures StepsOfTwo(steps, t, u)
    ensures var s' := Run(init, run + steps); t in s'.txs && s'.txs[t].Ended?
  {
    InitHasInv(init);
    RunKeepsInv(init, run);
    steps, u := CanEnd(Run(init, run), t);
    RunConcat(init, run, steps);
  }
}
