/** Pruning changes no reply, and no key can fail more than 2 * failsPerMinute times in a minute. */
module AdaptiveBounds {
  import opened Common
  import opened Domain
  import opened AdaptiveLimiter

  /* ---------- pruning against the limiter that never forgets ---------- */

  ghost predicate WindowsRelated(p: map<string, Window>, q: map<string, Window>, now: Time) {
    && (forall k | k in p :: k in q && q[k] == p[k])
    && (forall k | k in q && k !in p :: now - q[k].start >= MINUTE)
  }

  /** What was pruned is over: blocks have ended and windows would be reset anyway. */
  ghost predicate Related(p: Limiter, q: Limiter, now: Time) {
    && (forall k | k in p.blocks :: k in q.blocks && q.blocks[k] == p.blocks[k])
    && (forall k | k in q.blocks && k !in p.blocks :: q.blocks[k] < now)
    && WindowsRelated(p.fails, q.fails, now) && WindowsRelated(p.global, q.global, now)
    && p.strikes == q.strikes
  }

  lemma PruneKeepsRelated(p: Limiter, q: Limiter, now: Time, at: Time)
    requires Related(p, q, now) && now <= at
    ensures Related(Prune(true, p, at), Prune(false, q, at), at)
  {
  }

  lemma RelatedLater(p: Limiter, q: Limiter, now: Time, later: Time)
    requires Related(p, q, now) && now <= later
    ensures Related(p, q, later)
  {
  }

  lemma BumpAgrees(p: map<string, Window>, q: map<string, Window>, k: string, at: Time)
    requires WindowsRelated(p, q, at)
    ensures var w := Bump(p, k, at); w == Bump(q, k, at) && WindowsRelated(p[k := w], q[k := w], at)
  {
  }

  lemma IncrementFailureAgrees(p: Limiter, q: Limiter, key: string, threshold: int, now: Time, prune: Time, at: Time)
    requires Related(p, q, now) && now <= prune <= at
    ensures var (p', a), (q', b) := IncrementFailure(true, p, key, threshold, prune, at),
                                    IncrementFailure(false, q, key, threshold, prune, at);
            a == b && Related(p', q', at)
  {
    PruneKeepsRelated(p, q, now, prune);
    var p1, q1 := Prune(true, p, prune), Prune(false, q, prune);
    RelatedLater(p1, q1, prune, at);
    RelatedLater(p, q, now, at);
    BumpAgrees(p1.fails, q1.fails, key, at);
  }

  lemma IncrementGlobalAgrees(p: Limiter, q: Limiter, ip: string, threshold: int, now: Time, prune: Time, at: Time)
    requires Related(p, q, now) && now <= prune <= at
    ensures var (p', a), (q', b) := IncrementGlobal(true, p, ip, threshold, prune, at),
                                    IncrementGlobal(false, q, ip, threshold, prune, at);
            a == b && Related(p', q', at)
  {
    PruneKeepsRelated(p, q, now, prune);
    var p1, q1 := Prune(true, p, prune), Prune(false, q, prune);
    RelatedLater(p1, q1, prune, at);
    RelatedLater(p, q, now, at);
    BumpAgrees(p1.global, q1.global, ip, at);
  }

  lemma StrikeAndBlockAgree(c: Config, p: Limiter, q: Limiter, key: string, now: Time, r: Readings)
    requires Related(p, q, now) && now <= r.prune3 <= r.block
    ensures var (p', a), (q', b) := IncrementStrike(true, p, key, r.prune3, r.day),
                                    IncrementStrike(false, q, key, r.prune3, r.day);
            var d := BlockDurationForStrike(c, a);
            a == b && Related(SetBlock(p', key, d, r.block), SetBlock(q', key, d, r.block), r.block)
  {
    PruneKeepsRelated(p, q, now, r.prune3);
    var p', q' := IncrementStrike(true, p, key, r.prune3, r.day), IncrementStrike(false, q, key, r.prune3, r.day);
    RelatedLater(p'.0, q'.0, r.prune3, r.block);
  }

  lemma OnFailureAgrees(c: Config, p: Limiter, q: Limiter, ip: string, key: string, at: Time, r: Readings)
    requires Related(p, q, at) && Ordered(Request(ip, "", true, at, r))
    ensures var (p', a), (q', b) := OnFailure(true, c, p, ip, key, r), OnFailure(false, c, q, ip, key, r);
            a == b && Related(p', q', r.block)
  {
    IncrementFailureAgrees(p, q, key, c.failsPerMinute, at, r.prune1, r.fail);
    var p1, q1 := IncrementFailure(true, p, key, c.failsPerMinute, r.prune1, r.fail),
                  IncrementFailure(false, q, key, c.failsPerMinute, r.prune1, r.fail);
    IncrementGlobalAgrees(p1.0, q1.0, ip, c.globalFailsPerMinute, r.fail, r.prune2, r.global);
    var p2, q2 := IncrementGlobal(true, p1.0, ip, c.globalFailsPerMinute, r.prune2, r.global),
                  IncrementGlobal(false, q1.0, ip, c.globalFailsPerMinute, r.prune2, r.global);
    StrikeAndBlockAgree(c, p2.0, q2.0, key, r.global, r);
    RelatedLater(p2.0, q2.0, r.global, r.block);
  }

  lemma HandleAgrees(c: Config, p: Limiter, q: Limiter, now: Time, req: Request)
    requires Related(p, q, now) && now <= req.at && Ordered(req)
    ensures var (p', a), (q', b) := Handle(true, c, p, req), Handle(false, c, q, req);
            a == b && Related(p', q', req.clock.block)
  {
    OnFailureAgrees(c, p, q, req.ip, CombinedKey(req.ip, req.tenant), req.at, req.clock);
  }

  /** With and without pruning, every run gets the same replies: blocks, threshold hits and strikes. */
  lemma {:induction false} PruningUnobservable(c: Config, p: Limiter, q: Limiter, now: Time, run: seq<Request>)
    requires Related(p, q, now) && Timely(now, run)
    ensures Replies(true, c, p, run) == Replies(false, c, q, run)
    decreases |run|
  {
    if run != [] {
      HandleAgrees(c, p, q, now, run[0]);
      PruningUnobservable(c, Handle(true, c, p, run[0]).0, Handle(false, c, q, run[0]).0, run[0].clock.block, run[1..]);
    }
  }

  /* ---------- failures in a minute ---------- */

  /** When the counted failures of a key were counted, according to the replies. */
  function FailureTimes(run: seq<Request>, replies: seq<Reply>, key: string): seq<Time>
    requires |run| == |replies|
    decreases |run|
  {
    if run == [] then [] else
      (if replies[0].Counted? && CombinedKey(run[0].ip, run[0].tenant) == key then [run[0].clock.fail] else [])
      + FailureTimes(run[1..], replies[1..], key)
  }

  function CountIn(times: seq<Time>, from: Time): nat {
    if times == [] then 0 else
      (if from <= times[0] < from + MINUTE then 1 else 0) + CountIn(times[1..], from)
  }

  lemma {:induction false} CountInAppend(a: seq<Time>, b: seq<Time>, from: Time)
    ensures CountIn(a + b, from) == CountIn(a, from) + CountIn(b, from)
    decreases |a|
  {
    if a == [] {
      assert a + b == b;
    } else {
      assert (a + b)[1..] == a[1..] + b;
      CountInAppend(a[1..], b, from);
    }
  }

  lemma {:induction false} CountInAtMost(times: seq<Time>, from: Time)
    ensures CountIn(times, from) <= |times|
  {
    if times != [] { CountInAtMost(times[1..], from); }
  }

  lemma {:induction false} CountInOutside(times: seq<Time>, from: Time)
    requires forall i | 0 <= i < |times| :: times[i] < from || from + MINUTE <= times[i]
    ensures CountIn(times, from) == 0
  {
    if times != [] { CountInOutside(times[1..], from); }
  }

  function Flatten(wins: seq<seq<Time>>): seq<Time> {
    if wins == [] then [] else wins[0] + Flatten(wins[1..])
  }

  lemma {:induction false} FlattenSnoc(wins: seq<seq<Time>>, w: seq<Time>)
    ensures Flatten(wins + [w]) == Flatten(wins) + w
    decreases |wins|
  {
    if wins == [] {
      assert [w][1..] == [];
    } else {
      assert (wins + [w])[1..] == wins[1..] + [w];
      FlattenSnoc(wins[1..], w);
    }
  }

  ghost predicate Sorted(w: seq<Time>) {
    forall i, j | 0 <= i <= j < |w| :: w[i] <= w[j]
  }

  function Last(w: seq<Time>): Time
    requires w != []
  {
    w[|w| - 1]
  }

  ghost predicate WindowOk(w: seq<Time>, max: int) {
    0 < |w| <= max + 1 && Sorted(w) && Last(w) < w[0] + MINUTE
  }

  /** A window opens a minute after the previous one, and a minute after the last failure of a full one. */
  ghost predicate Follows(w: seq<Time>, next: seq<Time>, max: int)
    requires w != [] && next != []
  {
    && w[0] + MINUTE <= next[0] && Last(w) <= next[0]
    && (|w| == max + 1 ==> Last(w) + MINUTE <= next[0])
  }

  ghost predicate Structured(wins: seq<seq<Time>>, max: int) {
    && (forall i | 0 <= i < |wins| :: WindowOk(wins[i], max))
    && (forall i | 0 < i < |wins| :: Follows(wins[i - 1], wins[i], max))
  }

  lemma {:induction false} LaterWindowsAreOut(wins: seq<seq<Time>>, max: int, from: Time)
    requires Structured(wins, max) && (wins != [] ==> from + MINUTE <= wins[0][0])
    ensures CountIn(Flatten(wins), from) == 0
    decreases |wins|
  {
    if wins != [] {
      CountInAppend(wins[0], Flatten(wins[1..]), from);
      CountInOutside(wins[0], from);
      assert |wins| > 1 ==> Follows(wins[0], wins[1], max);
      LaterWindowsAreOut(wins[1..], max, from);
    }
  }

  /** No minute holds more than 2 * max failures of a structured sequence of windows. */
  lemma {:induction false} AtMostTwoWindows(wins: seq<seq<Time>>, max: int, from: Time)
    requires Structured(wins, max) && max >= 1
    ensures CountIn(Flatten(wins), from) <= 2 * max
    decreases |wins|
  {
    if wins != [] {
      var w, rest := wins[0], wins[1..];
      CountInAppend(w, Flatten(rest), from);
      if Last(w) < from {
        CountInOutside(w, from);
        AtMostTwoWindows(rest, max, from);
      } else {
        CountInAtMost(w, from);
        if rest != [] {
          assert Follows(wins[0], wins[1], max);
          if |w| == max + 1 || from + MINUTE <= rest[0][0] {
            LaterWindowsAreOut(rest, max, from);
          } else {
            // the first failure of `w` is a minute before the next window, hence before `from`
            CountInAtMost(w[1..], from);
            CountInAppend(rest[0], Flatten(rest[1..]), from);
            CountInAtMost(rest[0], from);
            assert |rest| > 1 ==> Follows(wins[1], wins[2], max);
            LaterWindowsAreOut(rest[1..], max, from);
          }
        }
      }
    }
  }

  /**
   How the state of a key reflects its failures so far: the current window's count and start are those
   of the last window, and a full window has blocked the key for a minute after its last failure.
   */
  ghost predicate Tracks(s: Limiter, key: string, wins: seq<seq<Time>>, max: int, now: Time) {
    && Structured(wins, max)
    && (key !in s.fails ==> wins == [])
    && (key in s.fails ==>
          && wins != []
          && var w := wins[|wins| - 1];
          && s.fails[key] == Window(|w|, w[0]) && Last(w) <= now
          && (|w| == max + 1 ==> key in s.blocks && Last(w) + MINUTE <= s.blocks[key]))
  }

  lemma StructuredSnoc(wins: seq<seq<Time>>, w: seq<Time>, max: int)
    requires Structured(wins, max) && WindowOk(w, max)
    requires wins != [] ==> Follows(wins[|wins| - 1], w, max)
    ensures Structured(wins + [w], max)
  {
    var all := wins + [w];
    forall i | 0 < i < |all| ensures Follows(all[i - 1], all[i], max) {
      if i < |wins| { assert Follows(wins[i - 1], wins[i], max); }
    }
  }

  /** A counted failure joins the current window or opens a new one. */
  lemma JoinWindows(wins: seq<seq<Time>>, max: int, f: Time) returns (wins': seq<seq<Time>>)
    requires Structured(wins, max) && max >= 1
    requires wins != [] ==>
               var w := wins[|wins| - 1]; Last(w) <= f && (|w| == max + 1 ==> Last(w) + MINUTE <= f)
    ensures Structured(wins', max) && Flatten(wins') == Flatten(wins) + [f] && wins' != []
    ensures var w' := wins'[|wins'| - 1];
            && Last(w') == f
            && if wins == [] || f - wins[|wins| - 1][0] >= MINUTE then w' == [f]
               else |w'| == |wins[|wins| - 1]| + 1 && w'[0] == wins[|wins| - 1][0]
  {
    if wins == [] || f - wins[|wins| - 1][0] >= MINUTE {
      StructuredSnoc(wins, [f], max);
      FlattenSnoc(wins, [f]);
      wins' := wins + [[f]];
    } else {
      var n := |wins| - 1;
      var init, w := wins[..n], wins[n];
      assert init + [w] == wins;
      assert n > 0 ==> Follows(wins[n - 1], wins[n], max);
      assert Structured(init, max) by {
        forall i | 0 < i < n ensures Follows(init[i - 1], init[i], max) { assert Follows(wins[i - 1], wins[i], max); }
      }
      StructuredSnoc(init, w + [f], max);
      FlattenSnoc(init, w);
      FlattenSnoc(init, w + [f]);
      wins' := init + [w + [f]];
    }
  }

  /** One counted failure of the limiter that never forgets, as far as its own key is concerned. */
  lemma OnFailureEffect(c: Config, s: Limiter, ip: string, key: string, r: Readings)
    requires c.failsPerMinute >= 1 && LongBlocks(c) && r.fail <= r.block
    ensures var (s', reply) := OnFailure(false, c, s, ip, key, r);
            && s'.fails == s.fails[key := Bump(s.fails, key, r.fail)]
            && (forall k | k != key && k in s.blocks :: k in s'.blocks && s'.blocks[k] == s.blocks[k])
            && (s'.fails[key].count > c.failsPerMinute ==> key in s'.blocks && r.fail + MINUTE <= s'.blocks[key])
  {
  }

  lemma StepTracks(c: Config, s: Limiter, q: Request, key: string, wins: seq<seq<Time>>, now: Time)
    returns (wins': seq<seq<Time>>)
    requires c.failsPerMinute >= 1 && LongBlocks(c)
    requires Tracks(s, key, wins, c.failsPerMinute, now) && now <= q.at && Ordered(q)
    ensures var (s', reply) := Handle(false, c, s, q);
            && Tracks(s', key, wins', c.failsPerMinute, q.clock.block)
            && Flatten(wins') == Flatten(wins) + FailureOf(c, s, q, key)
  {
    var k := CombinedKey(q.ip, q.tenant);
    if q.failed && !IsBlocked(s, k, q.at) {
      OnFailureEffect(c, s, q.ip, k, q.clock);
    }
    if k == key && q.failed && !IsBlocked(s, key, q.at) {
      wins' := JoinWindows(wins, c.failsPerMinute, q.clock.fail);
    } else {
      wins' := wins;
      assert Flatten(wins) + [] == Flatten(wins);
    }
  }

  function StateAfter(c: Config, s: Limiter, run: seq<Request>): Limiter
    decreases |run|
  {
    if run == [] then s else StateAfter(c, Handle(false, c, s, run[0]).0, run[1..])
  }

  function ClockAfter(now: Time, run: seq<Request>): Time
    decreases |run|
  {
    if run == [] then now else ClockAfter(run[0].clock.block, run[1..])
  }

  lemma {:induction false} RunTracks(c: Config, s: Limiter, run: seq<Request>, key: string, wins: seq<seq<Time>>, now: Time)
    returns (wins': seq<seq<Time>>)
    requires c.failsPerMinute >= 1 && LongBlocks(c)
    requires Tracks(s, key, wins, c.failsPerMinute, now) && Timely(now, run)
    ensures Tracks(StateAfter(c, s, run), key, wins', c.failsPerMinute, ClockAfter(now, run))
    ensures Flatten(wins') == Flatten(wins) + FailureTimes(run, Replies(false, c, s, run), key)
    decreases |run|
  {
    if run == [] {
      wins' := wins;
      assert Flatten(wins) + [] == Flatten(wins);
    } else {
      var wins1 := StepTracks(c, s, run[0], key, wins, now);
      var s1 := Handle(false, c, s, run[0]).0;
      wins' := RunTracks(c, s1, run[1..], key, wins1, run[0].clock.block);
      FirstFailure(c, s, run, key);
      Assoc(Flatten(wins), FailureOf(c, s, run[0], key), FailureTimes(run[1..], Replies(false, c, s1, run[1..]), key));
    }
  }

  /** The time a request contributes to the counted failures of a key. */
  function FailureOf(c: Config, s: Limiter, q: Request, key: string): seq<Time> {
    if Handle(false, c, s, q).1.Counted? && CombinedKey(q.ip, q.tenant) == key then [q.clock.fail] else []
  }

  lemma FirstFailure(c: Config, s: Limiter, run: seq<Request>, key: string)
    requires run != []
    ensures var s1 := Handle(false, c, s, run[0]).0;
            FailureTimes(run, Replies(false, c, s, run), key)
              == FailureOf(c, s, run[0], key) + FailureTimes(run[1..], Replies(false, c, s1, run[1..]), key)
  {
    assert Replies(false, c, s, run)[1..] == Replies(false, c, Handle(false, c, s, run[0]).0, run[1..]);
  }

  /**
   In every run of the limiter, pruning included, and every one-minute interval, a given ip:tenant key
   has at most 2 * failsPerMinute counted failures.
   */
  lemma FailuresPerMinute(c: Config, run: seq<Request>, now: Time, key: string, from: Time)
    requires c.failsPerMinute >= 1 && LongBlocks(c) && Timely(now, run)
    ensures CountIn(FailureTimes(run, Replies(true, c, EMPTY, run), key), from) <= 2 * c.failsPerMinute
  {
    PruningUnobservable(c, EMPTY, EMPTY, now, run);
    var wins := RunTracks(c, EMPTY, run, key, [], now);
    assert Flatten([]) + FailureTimes(run, Replies(false, c, EMPTY, run), key)
        == FailureTimes(run, Replies(false, c, EMPTY, run), key);
    AtMostTwoWindows(wins, c.failsPerMinute, from);
  }
}
