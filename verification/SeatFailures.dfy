/** The run that shows why seat safety must exclude lowering the seats. */
module SeatFailures {
  import opened Common
  import opened Domain
  import opened SeatProtocol
  import opened SeatInvariant
  import opened SeatSafety
  import opened ActivationRepo

  const ROW: LicenseRow := LicenseRow("a", "k", 1, Active, None, false, 0, None)
  const REQUEST: Request := Request("a", "k", "c")

  /** One license with one seat, nothing activated, nothing running. */
  const START: State := State(0, map["l" := ROW], map[], map[], map[], map[])

  const HELD: State := START.(acts := map["r" := Activation("l", "a", "c", true)])

  const ACTIVATE: seq<Step> := [LockRow("r", "l"), CheckRow("r"), CountSeats("r", None), Decide("r"), Commit("r")]

  /** One seat taken, then the license is updated to none. */
  const LOWER: Step := Update("a", "k", 0, Active, None)

  lemma NothingActive()
    ensures ActiveCount(START, "l") == 0 && !HasActive(START.acts, "l", "c")
  {
    assert ActiveOf(START.acts, "l") == {};
  }

  lemma RunCons(s: State, step: Step, rest: seq<Step>, s1: State)
    requires Exec(s, step) == s1
    ensures Run(s, [step] + rest) == Run(s1, rest)
  {
    assert ([step] + rest)[1..] == rest;
  }

  /** The activation from the counted seats on. */
  lemma CommitsFromCount(mid: State)
    requires mid == Mid(START, "r", "l", CountedTx(START, REQUEST, "l", None))
    ensures Run(mid, [Decide("r"), Commit("r")]) == Closed(HELD, "r", Fresh("r", "l", 0))
  {
    NothingActive();
    var tx := InsertedTx(START, REQUEST, "l");
    DecideExec(START, "r", REQUEST, "l", None);
    CommitExec(START, "r", "l", tx);
    var end := Closed(HELD, "r", Fresh("r", "l", 0));
    RunCons(mid, Decide("r"), [Commit("r")], Mid(START, "r", "l", tx));
    RunCons(Mid(START, "r", "l", tx), Commit("r"), [], end);
    assert [Decide("r")] + [Commit("r")] == [Decide("r"), Commit("r")] && [Commit("r")] + [] == [Commit("r")];
  }

  lemma ActivatesOnce()
    ensures Run(START, [Begin("r", REQUEST)] + ACTIVATE) == Closed(HELD, "r", Fresh("r", "l", 0))
  {
    NothingActive();
    var snap := SnapshotOf("l", ROW);
    var locked, checked := Mid(START, "r", "l", Locked(REQUEST, snap)), Mid(START, "r", "l", Checked(REQUEST, snap, 0));
    var counted := Mid(START, "r", "l", CountedTx(START, REQUEST, "l", None));
    OpenExec(START, "r", REQUEST);
    assert Ready(START, "r", REQUEST, "l");
    CheckExec(START, "r", REQUEST, "l");
    CountExec(START, "r", REQUEST, "l", None);
    var last := [Decide("r"), Commit("r")];
    var rest := [CountSeats("r", None)] + last;
    ActivateSteps(last, rest);
    RunCons(START, Begin("r", REQUEST), ACTIVATE, Began(START, "r", REQUEST));
    RunCons(Began(START, "r", REQUEST), LockRow("r", "l"), [CheckRow("r")] + rest, locked);
    RunCons(locked, CheckRow("r"), rest, checked);
    RunCons(checked, CountSeats("r", None), last, counted);
    CommitsFromCount(counted);
  }

  lemma ActivateSteps(last: seq<Step>, rest: seq<Step>)
    requires last == [Decide("r"), Commit("r")] && rest == [CountSeats("r", None)] + last
    ensures ACTIVATE == [LockRow("r", "l")] + ([CheckRow("r")] + rest)
  {
  }

  lemma LoweredIsOver(s: State)
    requires s == Closed(HELD, "r", Fresh("r", "l", 0))
    ensures Bounded(s) && !Bounded(Exec(s, LOWER))
  {
    var s' := Exec(s, LOWER);
    assert ActiveOf(s.acts, "l") == {"r"} && s'.acts == s.acts;
    assert "l" in s'.licenses && s'.licenses["l"].seatsTotal == 0;
    assert !Within(s'.licenses["l"].seatsTotal, ActiveCount(s', "l"));
  }

  /**
   From a fresh database: a client takes the one seat, then an update lowers the seats to none. The bound
   held before the update and is broken after it.
   */
  lemma LoweringBreaksBound()
    ensures Init(START) && Bounded(Run(START, [Begin("r", REQUEST)] + ACTIVATE))
    ensures !Bounded(Run(START, [Begin("r", REQUEST)] + ACTIVATE + [LOWER]))
  {
    ActivatesOnce();
    LoweredIsOver(Closed(HELD, "r", Fresh("r", "l", 0)));
    RunAppend(START, [Begin("r", REQUEST)] + ACTIVATE, LOWER);
  }
}
