/** The bound of `AdaptiveBounds.FailuresPerMinute` is reached: for every threshold F some run has 2F failures in a minute. */
module AdaptiveTight {
  import opened Common
  import opened Domain
  import opened AdaptiveLimiter
  import opened AdaptiveBounds

  /** A failing request during which the clock stands still. */
  function FailAt(ip: string, tenant: string, t: Time): Request {
    Request(ip, tenant, true, t, Readings(t, t, t, t, t, t, 0, t))
  }

  function Burst(ip: string, tenant: string, t: Time, n: nat): seq<Request> {
    if n == 0 then [] else [FailAt(ip, tenant, t)] + Burst(ip, tenant, t, n - 1)
  }

  /** The key is not blocked and both its window and its address's have this count and start. */
  predicate At(s: Limiter, ip: string, key: string, w: Window) {
    key !in s.blocks && key in s.fails && s.fails[key] == w && ip in s.global && s.global[ip] == w
  }

  /** Failures counted in the minute from `from` on. */
  function CountFrom(c: Config, s: Limiter, run: seq<Request>, key: string, from: Time): nat {
    CountIn(FailureTimes(run, Replies(false, c, s, run), key), from)
  }

  function Within(t: Time, from: Time): nat {
    if from <= t < from + MINUTE then 1 else 0
  }

  /** The first of several requests. */
  lemma CountFirst(c: Config, s: Limiter, q: Request, rest: seq<Request>, from: Time)
    requires Handle(false, c, s, q).1.Counted?
    ensures var key := CombinedKey(q.ip, q.tenant);
            CountFrom(c, s, [q] + rest, key, from)
              == Within(q.clock.fail, from) + CountFrom(c, Handle(false, c, s, q).0, rest, key, from)
  {
    var run, key := [q] + rest, CombinedKey(q.ip, q.tenant);
    FirstFailure(c, s, run, key);
    assert run[1..] == rest;
    CountInAppend([q.clock.fail], FailureTimes(rest, Replies(false, c, Handle(false, c, s, q).0, rest), key), from);
    assert CountIn([q.clock.fail], from) == Within(q.clock.fail, from) + CountIn([], from);
  }

  /** The address's own threshold is no lower than the key's. */
  predicate Lenient(c: Config) {
    1 <= c.failsPerMinute <= c.globalFailsPerMinute
  }

  /** A failure in the window that does not go over the threshold. */
  lemma FailsInWindow(c: Config, s: Limiter, ip: string, tenant: string, w: Window, t: Time)
    requires Lenient(c) && At(s, ip, CombinedKey(ip, tenant), w)
    requires t - w.start < MINUTE && w.count < c.failsPerMinute
    ensures var (s', reply) := Handle(false, c, s, FailAt(ip, tenant, t));
            reply.Counted? && At(s', ip, CombinedKey(ip, tenant), Window(w.count + 1, w.start))
  {
  }

  /** A failure that opens a window. */
  lemma FailsAnew(c: Config, s: Limiter, ip: string, tenant: string, t: Time)
    requires Lenient(c)
    requires s == EMPTY || exists w :: At(s, ip, CombinedKey(ip, tenant), w) && t - w.start >= MINUTE
    ensures var (s', reply) := Handle(false, c, s, FailAt(ip, tenant, t));
            reply.Counted? && At(s', ip, CombinedKey(ip, tenant), Window(1, t))
  {
  }

  /** Several failures at one instant, all below the threshold. */
  lemma {:induction false} BurstCounts(c: Config, s: Limiter, ip: string, tenant: string, w: Window, t: Time, n: nat,
                                       rest: seq<Request>, from: Time) returns (s': Limiter)
    requires Lenient(c) && At(s, ip, CombinedKey(ip, tenant), w)
    requires t - w.start < MINUTE && w.count + n <= c.failsPerMinute
    ensures At(s', ip, CombinedKey(ip, tenant), Window(w.count + n, w.start))
    ensures var key := CombinedKey(ip, tenant);
            CountFrom(c, s, Burst(ip, tenant, t, n) + rest, key, from)
              == (if from <= t < from + MINUTE then n else 0) + CountFrom(c, s', rest, key, from)
    decreases n
  {
    if n == 0 {
      s' := s;
      assert Burst(ip, tenant, t, n) + rest == rest;
    } else {
      var q, more := FailAt(ip, tenant, t), Burst(ip, tenant, t, n - 1) + rest;
      FailsInWindow(c, s, ip, tenant, w, t);
      assert Burst(ip, tenant, t, n) + rest == [q] + more;
      CountFirst(c, s, q, more, from);
      s' := BurstCounts(c, Handle(false, c, s, q).0, ip, tenant, Window(w.count + 1, w.start), t, n - 1, rest, from);
    }
  }

  /** A full window at one instant and the failure over the threshold. */
  function FullWindow(c: Config, ip: string, tenant: string): seq<Request>
    requires c.failsPerMinute >= 1
  {
    var last := FailAt(ip, tenant, MINUTE);
    [last] + (Burst(ip, tenant, MINUTE, c.failsPerMinute - 1) + ([last] + []))
  }

  /** One failure opens a window, the rest of it falls just before the minute is over, and a full window follows. */
  function TightRun(c: Config, ip: string, tenant: string): seq<Request>
    requires c.failsPerMinute >= 1
  {
    [FailAt(ip, tenant, 0)] + (Burst(ip, tenant, MINUTE - 1, c.failsPerMinute - 1) + FullWindow(c, ip, tenant))
  }

  lemma {:induction false} TimelyBurst(now: Time, ip: string, tenant: string, t: Time, n: nat, rest: seq<Request>)
    requires now <= t && Timely(t, rest)
    ensures Timely(now, Burst(ip, tenant, t, n) + rest)
    decreases n
  {
    if n == 0 {
      assert Burst(ip, tenant, t, n) + rest == rest;
      TimelySooner(now, t, rest);
    } else {
      TimelyBurst(t, ip, tenant, t, n - 1, rest);
      TimelyFirst(now, FailAt(ip, tenant, t), Burst(ip, tenant, t, n - 1) + rest);
      assert Burst(ip, tenant, t, n) + rest == [FailAt(ip, tenant, t)] + (Burst(ip, tenant, t, n - 1) + rest);
    }
  }

  lemma TimelySooner(now: Time, t: Time, run: seq<Request>)
    requires now <= t && Timely(t, run)
    ensures Timely(now, run)
  {
  }

  lemma TimelyFirst(now: Time, q: Request, rest: seq<Request>)
    requires now <= q.at && Ordered(q) && Timely(q.clock.block, rest)
    ensures Timely(now, [q] + rest)
  {
    assert ([q] + rest)[1..] == rest;
  }

  lemma TightRunIsTimely(c: Config, ip: string, tenant: string)
    requires c.failsPerMinute >= 1
    ensures Timely(0, TightRun(c, ip, tenant))
  {
    var f, last := c.failsPerMinute, FailAt(ip, tenant, MINUTE);
    TimelyFirst(MINUTE, last, []);
    TimelyBurst(MINUTE, ip, tenant, MINUTE, f - 1, [last] + []);
    TimelyFirst(MINUTE - 1, last, Burst(ip, tenant, MINUTE, f - 1) + ([last] + []));
    TimelyBurst(0, ip, tenant, MINUTE - 1, f - 1, FullWindow(c, ip, tenant));
    TimelyFirst(0, FailAt(ip, tenant, 0), Burst(ip, tenant, MINUTE - 1, f - 1) + FullWindow(c, ip, tenant));
  }

  lemma FullWindowCounts(c: Config, s: Limiter, ip: string, tenant: string, w: Window)
    requires Lenient(c) && At(s, ip, CombinedKey(ip, tenant), w) && w.start == 0
    ensures CountFrom(c, s, FullWindow(c, ip, tenant), CombinedKey(ip, tenant), 1) == c.failsPerMinute + 1
  {
    var f, last := c.failsPerMinute, FailAt(ip, tenant, MINUTE);
    FailsAnew(c, s, ip, tenant, MINUTE);
    CountFirst(c, s, last, Burst(ip, tenant, MINUTE, f - 1) + ([last] + []), 1);
    var s1 := Handle(false, c, s, last).0;
    var s2 := BurstCounts(c, s1, ip, tenant, Window(1, MINUTE), MINUTE, f - 1, [last] + [], 1);
    CountFirst(c, s2, last, [], 1);
  }

  lemma TightRunCounts(c: Config, ip: string, tenant: string)
    requires Lenient(c)
    ensures CountFrom(c, EMPTY, TightRun(c, ip, tenant), CombinedKey(ip, tenant), 1) == 2 * c.failsPerMinute
  {
    var f, first := c.failsPerMinute, FailAt(ip, tenant, 0);
    FailsAnew(c, EMPTY, ip, tenant, 0);
    CountFirst(c, EMPTY, first, Burst(ip, tenant, MINUTE - 1, f - 1) + FullWindow(c, ip, tenant), 1);
    var s1 := Handle(false, c, EMPTY, first).0;
    var s2 := BurstCounts(c, s1, ip, tenant, Window(1, 0), MINUTE - 1, f - 1, FullWindow(c, ip, tenant), 1);
    FullWindowCounts(c, s2, ip, tenant, Window(f, 0));
  }

  lemma StartsAtZero(c: Config, ip: string, tenant: string)
    requires Lenient(c)
    ensures var run := TightRun(c, ip, tenant);
            var times := FailureTimes(run, Replies(false, c, EMPTY, run), CombinedKey(ip, tenant));
            times != [] && times[0] == 0
  {
    FailsAnew(c, EMPTY, ip, tenant, 0);
    FirstFailure(c, EMPTY, TightRun(c, ip, tenant), CombinedKey(ip, tenant));
  }

  /**
   In the half-open minute that starts one tick after its first failure, the run has exactly twice the
   threshold. The first failure is at 0, so the closed minute from 0 to 60 seconds has one more.
   */
  lemma TwiceTheThreshold(c: Config, ip: string, tenant: string)
    requires Lenient(c)
    ensures var run := TightRun(c, ip, tenant);
            var times := FailureTimes(run, Replies(true, c, EMPTY, run), CombinedKey(ip, tenant));
            Timely(0, run) && CountIn(times, 1) == 2 * c.failsPerMinute && times != [] && times[0] == 0
  {
    TightRunIsTimely(c, ip, tenant);
    PruningUnobservable(c, EMPTY, EMPTY, 0, TightRun(c, ip, tenant));
    TightRunCounts(c, ip, tenant);
    StartsAtZero(c, ip, tenant);
  }
}
