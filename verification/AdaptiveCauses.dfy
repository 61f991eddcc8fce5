/** Why the failure limiter blocks: exactly for as long as the last hit of the key says, and never without failures. */
module AdaptiveCauses {
  import opened Common
  import opened Domain
  import opened AdaptiveLimiter
  import opened AdaptiveBounds

  function KeyOf(q: Request): string {
    CombinedKey(q.ip, q.tenant)
  }

  /** When the block of a key ends, going by its last hit in the history. */
  function BlockEnd(c: Config, run: seq<Request>, replies: seq<Reply>, key: string): Option<Time>
    requires |run| == |replies|
    decreases |run|
  {
    if run == [] then None
    else
      var n := |run| - 1;
      if KeyOf(run[n]) == key && replies[n].Counted? && replies[n].strike.Some?
      then Some(run[n].clock.block + BlockDurationForStrike(c, replies[n].strike.value))
      else BlockEnd(c, run[..n], replies[..n], key)
  }

  function Blocking(s: Limiter, key: string): Option<Time> {
    if key in s.blocks then Some(s.blocks[key]) else None
  }

  lemma {:induction false} LastStep(c: Config, s: Limiter, run: seq<Request>, n: nat)
    requires n < |run|
    ensures Replies(false, c, s, run[..n + 1]) == Replies(false, c, s, run)[..n + 1]
    ensures Replies(false, c, s, run[..n + 1]) == Replies(false, c, s, run[..n]) + [Handle(false, c, StateAfter(c, s, run[..n]), run[n]).1]
    ensures StateAfter(c, s, run[..n + 1]) == Handle(false, c, StateAfter(c, s, run[..n]), run[n]).0
    decreases n
  {
    var s' := Handle(false, c, s, run[0]).0;
    assert run[..n + 1][1..] == run[1..][..n];
    if n > 0 {
      assert run[..n][1..] == run[1..][..n - 1];
      LastStep(c, s', run[1..], n - 1);
    } else {
      assert run[..1] == [run[0]];
    }
  }

  lemma HandleBlocks(c: Config, s: Limiter, q: Request, key: string)
    requires LongBlocks(c)
    ensures var (s', reply) := Handle(false, c, s, q);
            Blocking(s', key) == if KeyOf(q) == key && reply.Counted? && reply.strike.Some?
                                 then Some(q.clock.block + BlockDurationForStrike(c, reply.strike.value))
                                 else Blocking(s, key)
  {
  }

  lemma {:induction false} BlocksFollowHits(c: Config, run: seq<Request>, n: nat, key: string)
    requires LongBlocks(c) && n <= |run|
    ensures Blocking(StateAfter(c, EMPTY, run[..n]), key) == BlockEnd(c, run[..n], Replies(false, c, EMPTY, run)[..n], key)
    decreases n
  {
    if n > 0 {
      var m := n - 1;
      BlocksFollowHits(c, run, m, key);
      LastStep(c, EMPTY, run, m);
      HandleBlocks(c, StateAfter(c, EMPTY, run[..m]), run[m], key);
      var replies := Replies(false, c, EMPTY, run);
      assert run[..n][..m] == run[..m] && replies[..n][..m] == replies[..m];
    }
  }

  lemma ReplyAt(c: Config, s: Limiter, run: seq<Request>, n: nat)
    requires n < |run|
    ensures Replies(false, c, s, run)[n] == Handle(false, c, StateAfter(c, s, run[..n]), run[n]).1
  {
    LastStep(c, s, run, n);
    assert Replies(false, c, s, run)[..n + 1][n] == Replies(false, c, s, run)[n];
  }

  /**
   In every run, pruning included, a request is refused if and only if its key's last hit blocks it still; what is
   not refused is counted exactly if it failed.
   */
  lemma BlockedIff(c: Config, run: seq<Request>, now: Time, i: nat)
    requires LongBlocks(c) && Timely(now, run) && i < |run|
    ensures var replies := Replies(true, c, EMPTY, run);
            var end := BlockEnd(c, run[..i], replies[..i], KeyOf(run[i]));
            && (replies[i] == Blocked <==> end.Some? && run[i].at < end.value)
            && (replies[i] != Blocked ==> if run[i].failed then replies[i].Counted? else replies[i] == Passed)
  {
    assert Replies(true, c, EMPTY, run) == Replies(false, c, EMPTY, run) by {
      PruningUnobservable(c, EMPTY, EMPTY, now, run);
    }
    BlocksFollowHits(c, run, i, KeyOf(run[i]));
    ReplyAt(c, EMPTY, run, i);
  }

  /* ---------- a threshold hit has its failures ---------- */

  lemma {:induction false} TimelyPrefix(now: Time, run: seq<Request>, n: nat)
    requires Timely(now, run) && n < |run|
    ensures Timely(now, run[..n]) && ClockAfter(now, run[..n]) <= run[n].at && Ordered(run[n])
    decreases n
  {
    if n > 0 {
      TimelyPrefix(run[0].clock.block, run[1..], n - 1);
      assert run[..n][1..] == run[1..][..n - 1];
    }
  }

  lemma {:induction false} CountInInside(w: seq<Time>, from: Time)
    requires forall i | 0 <= i < |w| :: from <= w[i] < from + MINUTE
    ensures CountIn(w, from) == |w|
    decreases |w|
  {
    if w != [] {
      CountInInside(w[1..], from);
    }
  }

  /** The failures of the last window all lie within the minute that starts with its first. */
  lemma LastWindowCounts(wins: seq<seq<Time>>, max: int)
    requires Structured(wins, max) && wins != []
    ensures var w := wins[|wins| - 1]; CountIn(Flatten(wins), w[0]) >= |w|
  {
    var n := |wins| - 1;
    var w := wins[n];
    assert wins == wins[..n] + [w];
    FlattenSnoc(wins[..n], w);
    CountInAppend(Flatten(wins[..n]), w, w[0]);
    assert WindowOk(w, max);
    CountInInside(w, w[0]);
  }

  lemma {:induction false} FailureTimesSnoc(run: seq<Request>, replies: seq<Reply>, key: string)
    requires run != [] && |run| == |replies|
    ensures var n := |run| - 1;
            FailureTimes(run, replies, key) == FailureTimes(run[..n], replies[..n], key) + Mark(run[n], replies[n], key)
    decreases |run|
  {
    var n := |run| - 1;
    if n > 0 {
      var runs, answers := run[1..], replies[1..];
      FailureTimesSnoc(runs, answers, key);
      assert run[..n][1..] == runs[..n - 1] && replies[..n][1..] == answers[..n - 1];
      Assoc(Mark(run[0], replies[0], key), FailureTimes(runs[..n - 1], answers[..n - 1], key), Mark(run[n], replies[n], key));
    }
  }

  /** The failure of one request, if it was counted for the key. */
  function Mark(q: Request, reply: Reply, key: string): seq<Time> {
    if reply.Counted? && KeyOf(q) == key then [q.clock.fail] else []
  }

  /** A threshold hit fills its window. */
  lemma HitFillsWindow(c: Config, s: Limiter, q: Request, wins: seq<seq<Time>>, now: Time) returns (wins': seq<seq<Time>>)
    requires c.failsPerMinute >= 1 && LongBlocks(c) && Tracks(s, KeyOf(q), wins, c.failsPerMinute, now)
    requires now <= q.at && Ordered(q)
    requires var reply := Handle(false, c, s, q).1; reply.Counted? && reply.thresholdHit
    ensures Structured(wins', c.failsPerMinute) && wins' != [] && |wins'[|wins'| - 1]| > c.failsPerMinute
    ensures Flatten(wins') == Flatten(wins) + [q.clock.fail]
  {
    wins' := StepTracks(c, s, q, KeyOf(q), wins, now);
    assert Handle(false, c, s, q).0.fails[KeyOf(q)].count > c.failsPerMinute;
  }

  /** A counted request adds its own failure to those of the run before it. */
  lemma {:induction false} CountedIsLast(c: Config, run: seq<Request>, i: nat)
    requires i < |run| && Replies(false, c, EMPTY, run)[i].Counted?
    ensures FailureTimes(run[..i + 1], Replies(false, c, EMPTY, run)[..i + 1], KeyOf(run[i]))
         == FailureTimes(run[..i], Replies(false, c, EMPTY, run[..i]), KeyOf(run[i])) + [run[i].clock.fail]
  {
    var replies := Replies(false, c, EMPTY, run);
    assert replies[..i] == Replies(false, c, EMPTY, run[..i]) by {
      LastStep(c, EMPTY, run, i);
      assert replies[..i + 1][..i] == replies[..i];
    }
    FailureTimesSnoc(run[..i + 1], replies[..i + 1], KeyOf(run[i]));
    assert run[..i + 1][..i] == run[..i] && replies[..i + 1][..i] == replies[..i];
  }

  /** The failures of the key up to and including this hit, window by window. */
  lemma {:induction false} WindowsAtHit(c: Config, run: seq<Request>, now: Time, i: nat) returns (wins: seq<seq<Time>>)
    requires c.failsPerMinute >= 1 && LongBlocks(c) && Timely(now, run) && i < |run|
    requires var reply := Replies(false, c, EMPTY, run)[i]; reply.Counted? && reply.thresholdHit
    ensures Structured(wins, c.failsPerMinute) && wins != [] && |wins[|wins| - 1]| > c.failsPerMinute
    ensures Flatten(wins) == FailureTimes(run[..i + 1], Replies(false, c, EMPTY, run)[..i + 1], KeyOf(run[i]))
  {
    TimelyPrefix(now, run, i);
    var before := RunTracks(c, EMPTY, run[..i], KeyOf(run[i]), [], now);
    ReplyAt(c, EMPTY, run, i);
    wins := HitFillsWindow(c, StateAfter(c, EMPTY, run[..i]), run[i], before, ClockAfter(now, run[..i]));
    CountedIsLast(c, run, i);
    assert Flatten([]) == [];
  }

  /**
   In every run a threshold hit comes with more than FailsPerMinute failures of its key, itself included,
   counted within one minute that starts at `from`.
   */
  lemma HitHasItsFailures(c: Config, run: seq<Request>, now: Time, i: nat) returns (from: Time)
    requires c.failsPerMinute >= 1 && LongBlocks(c) && Timely(now, run) && i < |run|
    requires var reply := Replies(true, c, EMPTY, run)[i]; reply.Counted? && reply.thresholdHit
    ensures CountIn(FailureTimes(run[..i + 1], Replies(true, c, EMPTY, run)[..i + 1], KeyOf(run[i])), from) > c.failsPerMinute
  {
    assert Replies(true, c, EMPTY, run) == Replies(false, c, EMPTY, run) by {
      PruningUnobservable(c, EMPTY, EMPTY, now, run);
    }
    var wins := WindowsAtHit(c, run, now, i);
    LastWindowCounts(wins, c.failsPerMinute);
    from := wins[|wins| - 1][0];
  }
}
