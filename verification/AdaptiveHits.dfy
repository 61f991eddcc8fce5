/**
 When the failure limiter strikes, told from its replies alone: a failure hits exactly when it is one too many in
 the minute window it falls in, for its key or for its address, and the strike is the number of hits that day.
 */
module AdaptiveHits {
  import opened Common
  import opened Domain
  import opened AdaptiveLimiter
  import opened AdaptiveBounds
  import opened AdaptiveCauses

  /* ---------- windows of a sequence of instants ---------- */

  /** The start of the window the last instant falls in: windows open with an instant and last a minute. */
  function WindowStart(times: seq<Time>): Time
    requires times != []
    decreases |times|
  {
    var n := |times| - 1;
    if n == 0 then times[0]
    else
      var start := WindowStart(times[..n]);
      if times[n] - start >= MINUTE then times[n] else start
  }

  /** How many of the instants fall in that window. */
  function InWindow(times: seq<Time>): nat
    requires times != []
  {
    CountIn(times, WindowStart(times))
  }

  lemma {:induction false} WindowHolds(times: seq<Time>)
    requires times != [] && Sorted(times)
    ensures times[0] <= WindowStart(times) <= Last(times) < WindowStart(times) + MINUTE
    decreases |times|
  {
    var n := |times| - 1;
    if n > 0 {
      WindowHolds(times[..n]);
    }
  }

  lemma {:induction false} CountLast(times: seq<Time>, t: Time, from: Time)
    ensures CountIn(times + [t], from) == CountIn(times, from) + if from <= t < from + MINUTE then 1 else 0
  {
    CountInAppend(times, [t], from);
    assert [t][1..] == [];
  }

  /** One more instant joins the window or opens the next. */
  lemma NextInstant(times: seq<Time>, t: Time)
    requires times != [] && Sorted(times + [t])
    ensures Sorted(times) && WindowStart(times + [t]) == if t - WindowStart(times) >= MINUTE then t else WindowStart(times)
    ensures InWindow(times + [t]) == if t - WindowStart(times) >= MINUTE then 1 else InWindow(times) + 1
  {
    var all := times + [t];
    assert all[..|times|] == times && all[|times|] == t;
    forall i, j | 0 <= i <= j < |times| ensures times[i] <= times[j] {
      assert all[i] <= all[j];
    }
    assert Last(times) <= t by {
      assert all[|times| - 1] <= all[|times|];
    }
    WindowHolds(times);
    CountLast(times, t, WindowStart(all));
    if t - WindowStart(times) >= MINUTE {
      CountInOutside(times, t);
    }
  }

  /** A window counter holds the start and the count of the window of these instants. */
  predicate Tallies(m: map<string, Window>, k: string, times: seq<Time>) {
    && (k in m <==> times != [])
    && (times != [] ==> m[k].start == WindowStart(times) && m[k].count == InWindow(times))
  }

  lemma BumpTallies(m: map<string, Window>, k: string, times: seq<Time>, t: Time)
    requires Tallies(m, k, times) && Sorted(times + [t])
    ensures Tallies(m[k := Bump(m, k, t)], k, times + [t])
  {
    if times == [] {
      FirstInstant(t);
      assert times + [t] == [t];
    } else {
      NextInstant(times, t);
    }
  }

  lemma FirstInstant(t: Time)
    ensures WindowStart([t]) == t && InWindow([t]) == 1
  {
    assert CountIn([t], t) == 1 + CountIn([t][1..], t);
  }

  /* ---------- over the replies of a run ---------- */

  /** When the counted failures of a key were counted for it. */
  function KeyTimes(run: seq<Request>, replies: seq<Reply>, key: string): seq<Time>
    requires |run| == |replies|
    decreases |run|
  {
    if run == [] then []
    else
      var n := |run| - 1;
      KeyTimes(run[..n], replies[..n], key) + if replies[n].Counted? && KeyOf(run[n]) == key then [run[n].clock.fail] else []
  }

  /** When the counted failures of an address, of whatever tenant, were counted for it. */
  function AddressTimes(run: seq<Request>, replies: seq<Reply>, ip: string): seq<Time>
    requires |run| == |replies|
    decreases |run|
  {
    if run == [] then []
    else
      var n := |run| - 1;
      AddressTimes(run[..n], replies[..n], ip) + if replies[n].Counted? && run[n].ip == ip then [run[n].clock.global] else []
  }

  /** The hits of a key on one day at the end of the run: those since its last hit on another day. */
  function HitsThatDay(run: seq<Request>, replies: seq<Reply>, key: string, day: int): nat
    requires |run| == |replies|
    decreases |run|
  {
    if run == [] then 0
    else
      var n := |run| - 1;
      if !(replies[n].Counted? && KeyOf(run[n]) == key && (replies[n].thresholdHit || replies[n].globalHit))
      then HitsThatDay(run[..n], replies[..n], key, day)
      else if run[n].clock.day != day then 0
      else HitsThatDay(run[..n], replies[..n], key, day) + 1
  }

  predicate Before(times: seq<Time>, now: Time) {
    forall i | 0 <= i < |times| :: times[i] <= now
  }

  ghost predicate Orderly(times: seq<Time>, now: Time) {
    Sorted(times) && Before(times, now)
  }

  lemma OrderlySnoc(times: seq<Time>, now: Time, t: Time, later: Time)
    requires Orderly(times, now) && now <= t <= later
    ensures Orderly(times + [t], later) && Orderly(times, later)
  {
  }

  /** What the limiter keeps of one key and one address reflects what the replies tell. */
  ghost predicate Reflects(c: Config, s: Limiter, run: seq<Request>, replies: seq<Reply>, key: string, ip: string, now: Time)
    requires |run| == |replies|
  {
    && Orderly(KeyTimes(run, replies, key), now) && Orderly(AddressTimes(run, replies, ip), now)
    && (c.failsPerMinute > 0 ==> Tallies(s.fails, key, KeyTimes(run, replies, key)))
    && (c.globalFailsPerMinute > 0 ==> Tallies(s.global, ip, AddressTimes(run, replies, ip)))
    && forall day :: StrikesOn(s, key, day) == HitsThatDay(run, replies, key, day)
  }

  function StrikesOn(s: Limiter, key: string, day: int): int {
    if key in s.strikes && s.strikes[key].day == day then s.strikes[key].count else 0
  }

  /** What one request does to the counters of a key and an address, and to the strikes of the key. */
  ghost predicate Follow(c: Config, s: Limiter, s': Limiter, q: Request, r: Reply, key: string, ip: string) {
    && Counts(s.fails, s'.fails, key, r.Counted? && KeyOf(q) == key && c.failsPerMinute > 0, q.clock.fail)
    && Counts(s.global, s'.global, ip, r.Counted? && q.ip == ip && c.globalFailsPerMinute > 0, q.clock.global)
    && forall day :: StrikesOn(s', key, day) ==
         if r.Counted? && KeyOf(q) == key && (r.thresholdHit || r.globalHit)
         then (if q.clock.day == day then StrikesOn(s, key, day) + 1 else 0)
         else StrikesOn(s, key, day)
  }

  predicate Counts(m: map<string, Window>, m': map<string, Window>, k: string, counted: bool, t: Time) {
    if counted then m' == m[k := Bump(m, k, t)] else (k in m' <==> k in m) && (k in m ==> m'[k] == m[k])
  }

  lemma HandleCounts(c: Config, s: Limiter, q: Request, key: string, ip: string)
    ensures var (s', r) := Handle(false, c, s, q);
            && Counts(s.fails, s'.fails, key, r.Counted? && KeyOf(q) == key && c.failsPerMinute > 0, q.clock.fail)
            && Counts(s.global, s'.global, ip, r.Counted? && q.ip == ip && c.globalFailsPerMinute > 0, q.clock.global)
  {
  }

  /** And what it answers: over the threshold or not, by the counters; a strike exactly for a hit, one more that day. */
  lemma HandleAnswers(c: Config, s: Limiter, q: Request, key: string)
    ensures var (s', r) := Handle(false, c, s, q);
            && (r.Counted? ==>
                  && r.thresholdHit == (c.failsPerMinute > 0 && Bump(s.fails, KeyOf(q), q.clock.fail).count > c.failsPerMinute)
                  && r.globalHit == (c.globalFailsPerMinute > 0 && Bump(s.global, q.ip, q.clock.global).count > c.globalFailsPerMinute)
                  && (r.strike.Some? <==> r.thresholdHit || r.globalHit)
                  && (r.strike.Some? ==> r.strike.value == StrikesOn(s, KeyOf(q), q.clock.day) + 1))
            && forall day :: StrikesOn(s', key, day) ==
                 if r.Counted? && KeyOf(q) == key && (r.thresholdHit || r.globalHit)
                 then (if q.clock.day == day then StrikesOn(s, key, day) + 1 else 0)
                 else StrikesOn(s, key, day)
  {
  }

  lemma KeyTimesSnoc(run: seq<Request>, replies: seq<Reply>, q: Request, r: Reply, key: string, ip: string)
    requires |run| == |replies|
    ensures KeyTimes(run + [q], replies + [r], key)
         == KeyTimes(run, replies, key) + if r.Counted? && KeyOf(q) == key then [q.clock.fail] else []
    ensures AddressTimes(run + [q], replies + [r], ip)
         == AddressTimes(run, replies, ip) + if r.Counted? && q.ip == ip then [q.clock.global] else []
    ensures forall day :: HitsThatDay(run + [q], replies + [r], key, day) ==
              if !(r.Counted? && KeyOf(q) == key && (r.thresholdHit || r.globalHit)) then HitsThatDay(run, replies, key, day)
              else if q.clock.day != day then 0 else HitsThatDay(run, replies, key, day) + 1
  {
    assert (run + [q])[..|run|] == run && (replies + [r])[..|run|] == replies;
  }

  /** Instants that stay in order when one may be added. */
  lemma OrderlyNext(times: seq<Time>, now: Time, more: seq<Time>, t: Time, later: Time)
    requires Orderly(times, now) && now <= t <= later && (more == [] || more == [t])
    ensures Orderly(times + more, later)
  {
    OrderlySnoc(times, now, t, later);
    EmptyConcat(times);
  }

  lemma TallyNext(m: map<string, Window>, m': map<string, Window>, k: string, times: seq<Time>, more: seq<Time>, t: Time)
    requires Tallies(m, k, times) && Sorted(times + more)
    requires if more == [] then (k in m' <==> k in m) && (k in m ==> m'[k] == m[k]) else more == [t] && m' == m[k := Bump(m, k, t)]
    ensures Tallies(m', k, times + more)
  {
    if more == [] {
      EmptyConcat(times);
    } else {
      BumpTallies(m, k, times, t);
    }
  }

  lemma StepReflects(c: Config, s: Limiter, run: seq<Request>, replies: seq<Reply>, q: Request, key: string, ip: string, now: Time)
    requires |run| == |replies| && Reflects(c, s, run, replies, key, ip, now) && now <= q.at && Ordered(q)
    ensures var (s', r) := Handle(false, c, s, q); Reflects(c, s', run + [q], replies + [r], key, ip, q.clock.block)
  {
    var (s', r) := Handle(false, c, s, q);
    KeyTimesSnoc(run, replies, q, r, key, ip);
    HandleCounts(c, s, q, key, ip);
    HandleAnswers(c, s, q, key);
    ReflectsNext(c, s, s', run, replies, q, r, key, ip, now);
  }

  /** What the limiter keeps still reflects the replies, by what the request did to it. */
  lemma ReflectsNext(c: Config, s: Limiter, s': Limiter, run: seq<Request>, replies: seq<Reply>, q: Request, r: Reply,
                     key: string, ip: string, now: Time)
    requires |run| == |replies| && Reflects(c, s, run, replies, key, ip, now) && now <= q.at && Ordered(q)
    requires Follow(c, s, s', q, r, key, ip)
    ensures Reflects(c, s', run + [q], replies + [r], key, ip, q.clock.block)
  {
    KeyTimesSnoc(run, replies, q, r, key, ip);
    var kt, at := KeyTimes(run, replies, key), AddressTimes(run, replies, ip);
    var k' := if r.Counted? && KeyOf(q) == key then [q.clock.fail] else [];
    var a' := if r.Counted? && q.ip == ip then [q.clock.global] else [];
    OrderlyNext(kt, now, k', q.clock.fail, q.clock.block);
    OrderlyNext(at, now, a', q.clock.global, q.clock.block);
    if c.failsPerMinute > 0 {
      TallyNext(s.fails, s'.fails, key, kt, k', q.clock.fail);
    }
    if c.globalFailsPerMinute > 0 {
      TallyNext(s.global, s'.global, ip, at, a', q.clock.global);
    }
  }

  lemma {:induction false} RunReflects(c: Config, run: seq<Request>, n: nat, key: string, ip: string, now: Time)
    requires Timely(now, run) && n <= |run|
    ensures Reflects(c, StateAfter(c, EMPTY, run[..n]), run[..n], Replies(false, c, EMPTY, run)[..n], key, ip, ClockAfter(now, run[..n]))
    decreases n
  {
    if n > 0 {
      var m, replies := n - 1, Replies(false, c, EMPTY, run);
      RunReflects(c, run, m, key, ip, now);
      NextRequest(c, run, m, now);
      StepReflects(c, StateAfter(c, EMPTY, run[..m]), run[..m], replies[..m], run[m], key, ip, ClockAfter(now, run[..m]));
    }
  }

  /** The run one request further: requests, replies, state and clock. */
  lemma NextRequest(c: Config, run: seq<Request>, m: nat, now: Time)
    requires Timely(now, run) && m < |run|
    ensures var s, replies := StateAfter(c, EMPTY, run[..m]), Replies(false, c, EMPTY, run);
            && run[..m + 1] == run[..m] + [run[m]] && replies[..m + 1] == replies[..m] + [replies[m]]
            && StateAfter(c, EMPTY, run[..m + 1]) == Handle(false, c, s, run[m]).0 && replies[m] == Handle(false, c, s, run[m]).1
            && ClockAfter(now, run[..m]) <= run[m].at && Ordered(run[m]) && ClockAfter(now, run[..m + 1]) == run[m].clock.block
  {
    LastStep(c, EMPTY, run, m);
    TimelyPrefix(now, run, m);
    ClockSnoc(now, run, m);
    ReplyAt(c, EMPTY, run, m);
  }

  lemma {:induction false} ClockSnoc(now: Time, run: seq<Request>, n: nat)
    requires n < |run|
    ensures ClockAfter(now, run[..n + 1]) == run[n].clock.block
    decreases n
  {
    if n == 0 {
      assert run[..1][1..] == [];
    } else {
      assert run[..n + 1][1..] == run[1..][..n];
      ClockSnoc(run[0].clock.block, run[1..], n - 1);
    }
  }

  /**
   In every run, pruning included: a counted failure is a hit of its key exactly when it is more than
   FailsPerMinute in the key's window, a hit of its address exactly when it is more than GlobalFailsPerMinute
   in the window of the address over all tenants, and it gets a strike exactly when it is either, which is the
   number of the key's hits that day.
   */
  lemma HitsIff(c: Config, run: seq<Request>, now: Time, i: nat)
    requires Timely(now, run) && i < |run| && Replies(true, c, EMPTY, run)[i].Counted?
    ensures var replies := Replies(true, c, EMPTY, run);
            var r, key := replies[i], KeyOf(run[i]);
            var mine := KeyTimes(run[..i + 1], replies[..i + 1], key);
            var address := AddressTimes(run[..i + 1], replies[..i + 1], run[i].ip);
            && mine != [] && Last(mine) == run[i].clock.fail && address != [] && Last(address) == run[i].clock.global
            && (r.thresholdHit <==> c.failsPerMinute > 0 && InWindow(mine) > c.failsPerMinute)
            && (r.globalHit <==> c.globalFailsPerMinute > 0 && InWindow(address) > c.globalFailsPerMinute)
            && (r.strike.Some? <==> r.thresholdHit || r.globalHit)
            && (r.strike.Some? ==> r.strike.value == HitsThatDay(run[..i + 1], replies[..i + 1], key, run[i].clock.day))
  {
    assert Replies(true, c, EMPTY, run) == Replies(false, c, EMPTY, run) by {
      PruningUnobservable(c, EMPTY, EMPTY, now, run);
    }
    var replies, q := Replies(false, c, EMPTY, run), run[i];
    RunReflects(c, run, i, KeyOf(q), q.ip, now);
    RunReflects(c, run, i + 1, KeyOf(q), q.ip, now);
    ReplyAt(c, EMPTY, run, i);
    LastStep(c, EMPTY, run, i);
    HandleCounts(c, StateAfter(c, EMPTY, run[..i]), q, KeyOf(q), q.ip);
    HandleAnswers(c, StateAfter(c, EMPTY, run[..i]), q, KeyOf(q));
    LastTimes(run, replies, i);
  }

  /** A counted failure is the last of its key and of its address. */
  lemma LastTimes(run: seq<Request>, replies: seq<Reply>, i: nat)
    requires i < |run| == |replies| && replies[i].Counted?
    ensures var mine := KeyTimes(run[..i + 1], replies[..i + 1], KeyOf(run[i])); mine != [] && Last(mine) == run[i].clock.fail
    ensures var address := AddressTimes(run[..i + 1], replies[..i + 1], run[i].ip); address != [] && Last(address) == run[i].clock.global
  {
  }
}
