/**
 The adaptive failure limiter in local mode: four maps, each operation with its own clock readings,
 and pruning as part of every increment. `prunes == false` gives the limiter that never forgets.
 */
module AdaptiveLimiter {
  import opened Common
  import opened Domain

  datatype Config = Config(failsPerMinute: int, globalFailsPerMinute: int, blockDurations: seq<Time>)

  datatype Window = Window(count: int, start: Time)

  /** `day` identifies the calendar day (year and day of year). */
  datatype Strike = Strike(count: int, day: int)

  datatype Limiter = Limiter(
    blocks: map<string, Time>,
    fails: map<string, Window>,
    global: map<string, Window>,
    strikes: map<string, Strike>,
    lastPrune: Option<Time>)

  const EMPTY := Limiter(map[], map[], map[], map[], None)

  /** The clock readings of one `onFailure`: a prune before each of the three increments, then the block. */
  datatype Readings = Readings(
    prune1: Time, fail: Time, prune2: Time, global: Time, prune3: Time, strike: Time, day: int, block: Time)

  datatype Request = Request(ip: string, tenant: string, failed: bool, at: Time, clock: Readings)

  datatype Reply = Blocked | Passed | Counted(thresholdHit: bool, globalHit: bool, strike: Option<int>)

  function CombinedKey(ip: string, tenant: string): string {
    ip + ":" + tenant
  }

  /** Environment values in minutes and counts, with the loader's defaults for useless ones. */
  function LoadConfig(fails: int, global: int, block1: int, block2: int, block3: int): (c: Config)
    ensures c.failsPerMinute >= 1 && c.globalFailsPerMinute >= 1
    ensures LongBlocks(c)
  {
    var d1 := (if block1 <= 0 then 5 else block1) * MINUTE;
    var d2 := (if block2 <= 0 then 15 else block2) * MINUTE;
    var d3 := (if block3 <= 0 then 60 else block3) * MINUTE;
    Config(if fails < 1 then 20 else fails, if global < 1 then 100 else global, [d1, d2, d3])
  }

  /** Every configured block lasts at least a minute. */
  predicate LongBlocks(c: Config) {
    forall i | 0 <= i < |c.blockDurations| :: c.blockDurations[i] >= MINUTE
  }

  function BlockDurationForStrike(c: Config, strike: int): (d: Time)
    ensures LongBlocks(c) ==> d >= MINUTE
  {
    var n := |c.blockDurations|;
    if n == 0 then 5 * MINUTE
    else if strike <= 1 then c.blockDurations[0]
    else if strike - 1 >= n then c.blockDurations[n - 1]
    else c.blockDurations[strike - 1]
  }

  /** The setting of a block in minutes, or its default. */
  function Setting(minutes: int, otherwise: int): int {
    if minutes > 0 then minutes else otherwise
  }

  /**
   From the settings: 20 failures of a key and 100 of an address unless set, and blocks that grow with the
   strike, the first, the second, and the third for every later one.
   */
  lemma BlockLadder(fails: int, global: int, block1: int, block2: int, block3: int, strike: int)
    requires strike >= 1
    ensures var c := LoadConfig(fails, global, block1, block2, block3);
            && c.failsPerMinute == Setting(fails, 20) && c.globalFailsPerMinute == Setting(global, 100)
            && BlockDurationForStrike(c, 1) == Setting(block1, 5) * MINUTE
            && BlockDurationForStrike(c, 2) == Setting(block2, 15) * MINUTE
            && (strike >= 3 ==> BlockDurationForStrike(c, strike) == Setting(block3, 60) * MINUTE)
  {
  }

  predicate IsBlocked(s: Limiter, key: string, now: Time) {
    key in s.blocks && now < s.blocks[key]
  }

  function Live(m: map<string, Window>, now: Time): map<string, Window> {
    map k | k in m && now - m[k].start < MINUTE :: m[k]
  }

  function LiveBlocks(m: map<string, Time>, now: Time): map<string, Time> {
    map k | k in m && now <= m[k] :: m[k]
  }

  function Prune(prunes: bool, s: Limiter, now: Time): Limiter {
    if !prunes || (s.lastPrune.Some? && now - s.lastPrune.value < MINUTE) then s else
      s.(lastPrune := Some(now),
         blocks := LiveBlocks(s.blocks, now),
         fails := Live(s.fails, now),
         global := Live(s.global, now))
  }

  function Bump(m: map<string, Window>, k: string, now: Time): Window {
    if k !in m || now - m[k].start >= MINUTE then Window(1, now) else Window(m[k].count + 1, m[k].start)
  }

  function IncrementFailure(prunes: bool, s: Limiter, key: string, threshold: int, prune: Time, now: Time): (Limiter, bool) {
    if threshold <= 0 then (s, false) else
      var s1 := Prune(prunes, s, prune);
      var w := Bump(s1.fails, key, now);
      (s1.(fails := s1.fails[key := w]), w.count > threshold)
  }

  function IncrementGlobal(prunes: bool, s: Limiter, ip: string, threshold: int, prune: Time, now: Time): (Limiter, bool) {
    if threshold <= 0 then (s, false) else
      var s1 := Prune(prunes, s, prune);
      var w := Bump(s1.global, ip, now);
      (s1.(global := s1.global[ip := w]), w.count > threshold)
  }

  function IncrementStrike(prunes: bool, s: Limiter, key: string, prune: Time, day: int): (Limiter, int) {
    var s1 := Prune(prunes, s, prune);
    var count := if key in s1.strikes && s1.strikes[key].day == day then s1.strikes[key].count + 1 else 1;
    (s1.(strikes := s1.strikes[key := Strike(count, day)]), count)
  }

  function SetBlock(s: Limiter, key: string, duration: Time, now: Time): Limiter {
    if duration <= 0 then s else s.(blocks := s.blocks[key := now + duration])
  }

  function OnFailure(prunes: bool, c: Config, s: Limiter, ip: string, key: string, r: Readings): (Limiter, Reply) {
    var (s1, hit) := IncrementFailure(prunes, s, key, c.failsPerMinute, r.prune1, r.fail);
    var (s2, globalHit) := IncrementGlobal(prunes, s1, ip, c.globalFailsPerMinute, r.prune2, r.global);
    if !hit && !globalHit then (s2, Counted(hit, globalHit, None)) else
      var (s3, strike) := IncrementStrike(prunes, s2, key, r.prune3, r.day);
      (SetBlock(s3, key, BlockDurationForStrike(c, strike), r.block), Counted(hit, globalHit, Some(strike)))
  }

  function Handle(prunes: bool, c: Config, s: Limiter, q: Request): (Limiter, Reply) {
    var key := CombinedKey(q.ip, q.tenant);
    if IsBlocked(s, key, q.at) then (s, Blocked)
    else if !q.failed then (s, Passed)
    else OnFailure(prunes, c, s, q.ip, key, q.clock)
  }

  function Replies(prunes: bool, c: Config, s: Limiter, run: seq<Request>): (r: seq<Reply>)
    ensures |r| == |run|
    decreases |run|
  {
    if run == [] then [] else
      var (s', reply) := Handle(prunes, c, s, run[0]);
      [reply] + Replies(prunes, c, s', run[1..])
  }

  /** One clock for all readings, never going back. */
  predicate Ordered(q: Request) {
    var r := q.clock;
    q.at <= r.prune1 <= r.fail <= r.prune2 <= r.global <= r.prune3 <= r.strike <= r.block
  }

  predicate Timely(now: Time, run: seq<Request>)
    decreases |run|
  {
    run != [] ==> now <= run[0].at && Ordered(run[0]) && Timely(run[0].clock.block, run[1..])
  }

  /* ---------- the limiter as an object ---------- */

  class AdaptiveFailLimiter {
    const config: Config
    var blocks: map<string, Time>
    var fails: map<string, Window>
    var global: map<string, Window>
    var strikes: map<string, Strike>
    var lastPrune: Option<Time>

    ghost function State(): Limiter
      reads this
    {
      Limiter(blocks, fails, global, strikes, lastPrune)
    }

    constructor (config: Config)
      ensures this.config == config && State() == EMPTY
    {
      this.config := config;
      blocks, fails, global, strikes, lastPrune := map[], map[], map[], map[], None;
    }

    method PruneLocal(now: Time)
      modifies this
      ensures State() == Prune(true, old(State()), now)
    {
      if lastPrune.Some? && now - lastPrune.value < MINUTE {
        return;
      }
      lastPrune := Some(now);
      blocks := PruneBlocks(blocks, now);
      fails := PruneWindows(fails, now);
      global := PruneWindows(global, now);
    }

    static method PruneBlocks(m: map<string, Time>, now: Time) returns (live: map<string, Time>)
      ensures live == LiveBlocks(m, now)
    {
      live := m;
      var todo := m.Keys;
      while todo != {}
        invariant todo <= m.Keys
        invariant live == map k | k in m && (k in todo || now <= m[k]) :: m[k]
        decreases |todo|
      {
        var k :| k in todo;
        todo := todo - {k};
        if now > live[k] {
          live := live - {k};
        }
      }
    }

    static method PruneWindows(m: map<string, Window>, now: Time) returns (live: map<string, Window>)
      ensures live == Live(m, now)
    {
      live := m;
      var todo := m.Keys;
      while todo != {}
        invariant todo <= m.Keys
        invariant live == map k | k in m && (k in todo || now - m[k].start < MINUTE) :: m[k]
        decreases |todo|
      {
        var k :| k in todo;
        todo := todo - {k};
        if now - live[k].start >= MINUTE {
          live := live - {k};
        }
      }
    }

    method IncrementFailureLocal(key: string, threshold: int, prune: Time, now: Time) returns (hit: bool)
      modifies this
      ensures (State(), hit) == IncrementFailure(true, old(State()), key, threshold, prune, now)
    {
      if threshold <= 0 {
        return false;
      }
      PruneLocal(prune);
      var w := if key in fails then fails[key] else Window(0, now);
      if key !in fails || now - w.start >= MINUTE {
        w := Window(0, now);
      }
      w := w.(count := w.count + 1);
      fails := fails[key := w];
      hit := w.count > threshold;
    }

    method IncrementGlobalLocal(ip: string, threshold: int, prune: Time, now: Time) returns (hit: bool)
      modifies this
      ensures (State(), hit) == IncrementGlobal(true, old(State()), ip, threshold, prune, now)
    {
      if threshold <= 0 {
        return false;
      }
      PruneLocal(prune);
      var w := if ip in global then global[ip] else Window(0, now);
      if ip !in global || now - w.start >= MINUTE {
        w := Window(0, now);
      }
      w := w.(count := w.count + 1);
      global := global[ip := w];
      hit := w.count > threshold;
    }

    method IncrementStrikeLocal(key: string, prune: Time, day: int) returns (count: int)
      modifies this
      ensures (State(), count) == IncrementStrike(true, old(State()), key, prune, day)
    {
      PruneLocal(prune);
      var st := if key in strikes then strikes[key] else Strike(0, day);
      if st.day != day {
        st := Strike(0, day);
      }
      count := st.count + 1;
      strikes := strikes[key := Strike(count, day)];
    }

    /** The middleware: refuse a blocked key, otherwise count the request if it failed. */
    method Serve(q: Request) returns (reply: Reply)
      modifies this
      ensures (State(), reply) == Handle(true, config, old(State()), q)
    {
      var key := CombinedKey(q.ip, q.tenant);
      if key in blocks && q.at < blocks[key] {
        return Blocked;
      }
      if !q.failed {
        return Passed;
      }
      var hit := IncrementFailureLocal(key, config.failsPerMinute, q.clock.prune1, q.clock.fail);
      var globalHit := IncrementGlobalLocal(q.ip, config.globalFailsPerMinute, q.clock.prune2, q.clock.global);
      if !hit && !globalHit {
        return Counted(hit, globalHit, None);
      }
      var strike := StrikeAndBlock(key, q.clock);
      reply := Counted(hit, globalHit, Some(strike));
    }

    method StrikeAndBlock(key: string, r: Readings) returns (strike: int)
      modifies this
      ensures var (s, n) := IncrementStrike(true, old(State()), key, r.prune3, r.day);
              strike == n && State() == SetBlock(s, key, BlockDurationForStrike(config, n), r.block)
    {
      strike := IncrementStrikeLocal(key, r.prune3, r.day);
      var duration := BlockDurationForStrike(config, strike);
      if duration > 0 {
        blocks := blocks[key := r.block + duration];
      }
    }
  }
}
