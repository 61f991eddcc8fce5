/**
 The two rate limiters that keep one bucket per key: the public license limiter and the per-tenant
 limiter. Idle buckets are dropped and recreated full. A limiter that never drops anything is the
 reference; the two are told apart by no run exactly when a bucket refills within the idle time.
 */
module BucketMaps {
  import opened Common
  import opened TokenBucket

  const IDLE_EVICT: Seconds := 300.0
  const MAX_BUCKETS: nat := 10_000

  datatype Key = Path(route: string) | Lic(hash: string) | Ip(addr: string) | Tenant(id: string)

  /** Fixed limits of the public limiter; a tenant's limits are its own. */
  function LimitsFor(tenants: map<string, Limits>, k: Key): Limits {
    match k
    case Path(_) => Limits(200, 400)
    case Lic(_) => Limits(30, 60)
    case Ip(_) => Limits(5, 10)
    case Tenant(id) => if id in tenants then tenants[id] else Limits(0, 0)
  }

  /** `cap` is the number of buckets kept, if bounded; `evicts` is false for the reference. */
  datatype Variant = Variant(evicts: bool, cap: Option<nat>)

  const REFERENCE := Variant(false, None)

  /** A bucket keeps the limits it was created with. */
  datatype Kept = Kept(limits: Limits, level: Level)

  datatype Limiter = Limiter(tenants: map<string, Limits>, buckets: map<Key, Kept>)

  datatype Op =
    | Admit(keys: seq<Key>, at: Seconds)
    | Cleanup(at: Seconds)
    | SetLimits(id: string, limits: Limits)
    | Invalidate(id: string)

  predicate Full(v: Variant, buckets: map<Key, Kept>) {
    v.cap.Some? && |buckets| >= v.cap.value
  }

  /** getOrCreate followed by Allow. At the cap a new bucket is used once and not kept. */
  function Request(v: Variant, l: Limits, buckets: map<Key, Kept>, k: Key, now: Seconds): (map<Key, Kept>, bool) {
    if k in buckets then
      var (level, ok) := Take(buckets[k].limits, buckets[k].level, now);
      (buckets[k := Kept(buckets[k].limits, level)], ok)
    else
      var (level, ok) := Take(l, Fresh(l, now), now);
      (if Full(v, buckets) then buckets else buckets[k := Kept(l, level)], ok)
  }

  /** The middleware's buckets in order; the first refusal ends the request. */
  function AdmitAll(v: Variant, s: Limiter, keys: seq<Key>, now: Seconds): (Limiter, bool)
    decreases |keys|
  {
    if keys == [] then (s, true) else
      var (buckets, ok) := Request(v, LimitsFor(s.tenants, keys[0]), s.buckets, keys[0], now);
      if ok then AdmitAll(v, s.(buckets := buckets), keys[1..], now) else (s.(buckets := buckets), false)
  }

  function DropIdle(buckets: map<Key, Kept>, now: Seconds): map<Key, Kept> {
    map k | k in buckets && now - buckets[k].level.lastSeen <= IDLE_EVICT :: buckets[k]
  }

  function Step(v: Variant, s: Limiter, op: Op): (Limiter, Option<bool>) {
    match op
    case Admit(keys, at) => var (s', ok) := AdmitAll(v, s, keys, at); (s', Some(ok))
    case Cleanup(at) => (if v.evicts then s.(buckets := DropIdle(s.buckets, at)) else s, None)
    case SetLimits(id, limits) => (Limiter(s.tenants[id := limits], s.buckets - {Tenant(id)}), None)
    case Invalidate(id) => (s.(buckets := s.buckets - {Tenant(id)}), None)
  }

  function Outputs(v: Variant, s: Limiter, ops: seq<Op>): seq<Option<bool>>
    decreases |ops|
  {
    if ops == [] then [] else
      var (s', out) := Step(v, s, ops[0]);
      [out] + Outputs(v, s', ops[1..])
  }

  /* ---------- the maps as objects ---------- */

  class BucketMap {
    const cap: Option<nat>
    var tenants: map<string, Limits>
    var buckets: map<Key, Kept>

    ghost function State(): Limiter
      reads this
    {
      Limiter(tenants, buckets)
    }

    ghost function Kind(): Variant {
      Variant(true, cap)
    }

    constructor (cap: Option<nat>)
      ensures this.cap == cap && State() == Limiter(map[], map[])
    {
      this.cap := cap;
      tenants, buckets := map[], map[];
    }

    method Allow(k: Key, rps: int, burst: int, now: Seconds) returns (ok: bool)
      modifies this`buckets
      ensures (buckets, ok) == Request(Kind(), Limits(rps, burst), old(buckets), k, now)
    {
      var l := Limits(rps, burst);
      if k in buckets {
        var kept := buckets[k];
        var r := Take(kept.limits, kept.level, now);
        buckets := buckets[k := Kept(kept.limits, r.0)];
        ok := r.1;
      } else {
        var r := Take(l, Fresh(l, now), now);
        if cap.None? || |buckets| < cap.value {
          buckets := buckets[k := Kept(l, r.0)];
        }
        ok := r.1;
      }
    }

    /** Public middleware: the path's bucket first, then the license's or, without one, the client's. */
    method AdmitPublic(route: string, hash: Option<string>, addr: string, now: Seconds) returns (ok: bool)
      modifies this`buckets
      ensures var second := if hash.Some? then Lic(hash.value) else Ip(if addr == "" then "unknown" else addr);
              (State(), Some(ok)) == Step(Kind(), old(State()), Admit([Path(route), second], now))
    {
      ghost var s := State();
      var known := if addr == "" then "unknown" else addr;
      ghost var second := if hash.Some? then Lic(hash.value) else Ip(known);
      ghost var keys := [Path(route), second];
      assert keys[1..] == [second] && [second][1..] == [];
      ok := Allow(Path(route), 200, 400, now);
      ghost var s1 := State();
      assert ok ==> AdmitAll(Kind(), s, keys, now) == AdmitAll(Kind(), s1, [second], now);
      if !ok {
        return;
      }
      if hash.Some? {
        ok := Allow(Lic(hash.value), 30, 60, now);
      } else {
        ok := Allow(Ip(known), 5, 10, now);
      }
      assert AdmitAll(Kind(), State(), [], now) == (State(), true);
    }

    method AdmitTenant(id: string, now: Seconds) returns (ok: bool)
      requires id in tenants
      modifies this`buckets
      ensures (State(), Some(ok)) == Step(Kind(), old(State()), Admit([Tenant(id)], now))
    {
      assert [Tenant(id)][1..] == [];
      ok := Allow(Tenant(id), tenants[id].rps, tenants[id].burst, now);
      assert AdmitAll(Kind(), State(), [], now) == (State(), true);
    }

    method Forget(id: string)
      modifies this`buckets
      ensures State() == Step(Kind(), old(State()), Invalidate(id)).0
    {
      buckets := buckets - {Tenant(id)};
    }

    method CleanupIdle(now: Seconds)
      modifies this`buckets
      ensures State() == Step(Kind(), old(State()), Cleanup(now)).0
    {
      var todo := buckets.Keys;
      while todo != {}
        invariant todo <= old(buckets.Keys)
        invariant buckets == map k | k in old(buckets) && (k in todo || now - old(buckets)[k].level.lastSeen <= IDLE_EVICT)
                             :: old(buckets)[k]
        decreases |todo|
      {
        var k :| k in todo;
        todo := todo - {k};
        if now - buckets[k].level.lastSeen > IDLE_EVICT {
          buckets := buckets - {k};
        }
      }
    }
  }

  /* ---------- eviction against the reference ---------- */

  /** An idle bucket is full again before it can be dropped. */
  predicate Refills(l: Limits) {
    Sane(l) && l.burst <= 300 * l.rps
  }

  ghost predicate LevelOk(l: Limits, b: Level, now: Seconds) {
    0.0 <= b.tokens <= l.burst as real && b.lastFill == b.lastSeen && b.lastFill <= now
  }

  /** A bucket in the map has the limits in force for its key: changing a tenant's limits drops its bucket. */
  ghost predicate KeptOk(tenants: map<string, Limits>, k: Key, b: Kept, now: Seconds) {
    b.limits == LimitsFor(tenants, k) && LevelOk(b.limits, b.level, now)
  }

  predicate FullAgain(l: Limits, b: Level, now: Seconds) {
    Available(l, b, now) == l.burst as real
  }

  /** Kept buckets agree; a dropped one would be full by now. */
  ghost predicate Related(s: Limiter, ref: Limiter, now: Seconds) {
    && s.tenants == ref.tenants
    && (forall id | id in ref.tenants :: Refills(ref.tenants[id]))
    && (forall k | k in s.buckets :: k in ref.buckets && s.buckets[k] == ref.buckets[k])
    && (forall k | k in ref.buckets :: KeptOk(ref.tenants, k, ref.buckets[k], now))
    && (forall k | k in ref.buckets && k !in s.buckets :: FullAgain(ref.buckets[k].limits, ref.buckets[k].level, now))
  }

  lemma FullStaysFull(l: Limits, b: Level, now: Seconds, later: Seconds)
    requires Sane(l) && LevelOk(l, b, now) && now <= later
    ensures LevelOk(l, b, later) && (FullAgain(l, b, now) ==> FullAgain(l, b, later))
  {
    EarnedGrows(now - b.lastFill, later - b.lastFill, l.rps);
  }

  lemma IdleIsFull(l: Limits, b: Level, now: Seconds)
    requires Refills(l) && LevelOk(l, b, now) && now - b.lastSeen > IDLE_EVICT
    ensures FullAgain(l, b, now)
  {
    EarnedWhenIdle(l.rps);
    EarnedGrows(IDLE_EVICT, now - b.lastFill, l.rps);
    assert Earned(now - b.lastFill, l.rps) >= l.burst as real;
  }

  lemma {:induction false} EarnedWhenIdle(rps: nat)
    ensures Earned(IDLE_EVICT, rps) == (300 * rps) as real
  {
    if rps > 0 {
      EarnedWhenIdle(rps - 1);
    }
  }

  lemma TakeKeepsLevel(l: Limits, b: Level, now: Seconds)
    requires Sane(l) && LevelOk(l, b, now)
    ensures LevelOk(l, Take(l, b, now).0, now)
    ensures FullAgain(l, b, now) ==> Take(l, b, now) == Take(l, Fresh(l, now), now)
  {
    AvailableInRange(l, b, now);
    EarnedInNoTime(l.rps);
  }

  lemma LimitsAlwaysRefill(tenants: map<string, Limits>, k: Key)
    requires forall id | id in tenants :: Refills(tenants[id])
    ensures Refills(LimitsFor(tenants, k))
  {
  }

  lemma TimePasses(s: Limiter, ref: Limiter, now: Seconds, later: Seconds)
    requires Related(s, ref, now) && now <= later
    ensures Related(s, ref, later)
  {
    forall k | k in ref.buckets
      ensures KeptOk(ref.tenants, k, ref.buckets[k], later)
      ensures k !in s.buckets ==> FullAgain(ref.buckets[k].limits, ref.buckets[k].level, later)
    {
      LimitsAlwaysRefill(ref.tenants, k);
      FullStaysFull(ref.buckets[k].limits, ref.buckets[k].level, now, later);
    }
  }

  /** The keys in use fit under the cap. */
  ghost predicate Roomy(v: Variant, s: Limiter, used: set<Key>) {
    s.buckets.Keys <= used && (v.cap.Some? ==> |used| <= v.cap.value)
  }

  /** Putting the same good bucket into both maps keeps them related. */
  lemma BothKeep(s: Limiter, ref: Limiter, k: Key, kept: Kept, now: Seconds)
    requires Related(s, ref, now) && KeptOk(ref.tenants, k, kept, now)
    ensures Related(s.(buckets := s.buckets[k := kept]), ref.(buckets := ref.buckets[k := kept]), now)
  {
  }

  lemma RoomStays(v: Variant, s: Limiter, k: Key, kept: Kept, used: set<Key>)
    requires Roomy(v, s, used) && k in used
    ensures Roomy(v, s.(buckets := s.buckets[k := kept]), used)
    ensures k !in s.buckets ==> !Full(v, s.buckets)
  {
    if k !in s.buckets {
      SubsetCard(s.buckets.Keys, used - {k});
    }
  }

  lemma RequestAgrees(v: Variant, s: Limiter, ref: Limiter, k: Key, now: Seconds, used: set<Key>)
    requires Related(s, ref, now) && Roomy(v, s, used) && k in used
    ensures var l := LimitsFor(s.tenants, k);
            var (m, ok), (m', ok') := Request(v, l, s.buckets, k, now), Request(REFERENCE, l, ref.buckets, k, now);
            && ok == ok' && Related(s.(buckets := m), ref.(buckets := m'), now)
            && Roomy(v, s.(buckets := m), used)
  {
    var l := LimitsFor(s.tenants, k);
    LimitsAlwaysRefill(s.tenants, k);
    var before := if k in ref.buckets then ref.buckets[k].level else Fresh(l, now);
    assert LevelOk(l, before, now);
    TakeKeepsLevel(l, before, now);
    var kept := Kept(l, Take(l, before, now).0);
    BothKeep(s, ref, k, kept, now);
    RoomStays(v, s, k, kept, used);
  }

  lemma {:induction false} AdmitAgrees(v: Variant, s: Limiter, ref: Limiter, keys: seq<Key>, now: Seconds, used: set<Key>)
    requires Related(s, ref, now) && Roomy(v, s, used)
    requires forall k | k in keys :: k in used
    ensures var (s', ok), (ref', ok') := AdmitAll(v, s, keys, now), AdmitAll(REFERENCE, ref, keys, now);
            ok == ok' && Related(s', ref', now) && Roomy(v, s', used)
    decreases |keys|
  {
    if keys != [] {
      var l := LimitsFor(s.tenants, keys[0]);
      RequestAgrees(v, s, ref, keys[0], now, used);
      var r, r' := Request(v, l, s.buckets, keys[0], now), Request(REFERENCE, l, ref.buckets, keys[0], now);
      if r.1 {
        AdmitAgrees(v, s.(buckets := r.0), ref.(buckets := r'.0), keys[1..], now, used);
      }
    }
  }

  lemma CleanupAgrees(s: Limiter, ref: Limiter, now: Seconds)
    requires Related(s, ref, now)
    ensures Related(s.(buckets := DropIdle(s.buckets, now)), ref, now)
  {
    forall k | k in s.buckets && now - s.buckets[k].level.lastSeen > IDLE_EVICT
      ensures FullAgain(ref.buckets[k].limits, ref.buckets[k].level, now)
    {
      LimitsAlwaysRefill(ref.tenants, k);
      IdleIsFull(ref.buckets[k].limits, ref.buckets[k].level, now);
    }
  }

  /** When an operation reads the clock, and the clock after it. */
  function ClockAfter(now: Seconds, op: Op): Seconds {
    match op
    case Admit(_, at) => at
    case Cleanup(at) => at
    case _ => now
  }

  /** A non-decreasing clock, limits that refill within the idle time, and keys from `used` only. */
  ghost predicate GoodRun(now: Seconds, ops: seq<Op>, used: set<Key>)
    decreases |ops|
  {
    ops != [] ==>
      && now <= ClockAfter(now, ops[0])
      && (ops[0].SetLimits? ==> Refills(ops[0].limits))
      && (ops[0].Admit? ==> forall k | k in ops[0].keys :: k in used)
      && GoodRun(ClockAfter(now, ops[0]), ops[1..], used)
  }

  lemma StepAgrees(v: Variant, s: Limiter, ref: Limiter, op: Op, now: Seconds, used: set<Key>)
    requires v.evicts && Related(s, ref, now) && Roomy(v, s, used) && GoodRun(now, [op], used)
    ensures var (s', out), (ref', out') := Step(v, s, op), Step(REFERENCE, ref, op);
            out == out' && Related(s', ref', ClockAfter(now, op)) && Roomy(v, s', used)
  {
    assert op == [op][0];
    match op
    case Admit(keys, at) =>
      TimePasses(s, ref, now, at);
      AdmitAgrees(v, s, ref, keys, at, used);
    case Cleanup(at) =>
      TimePasses(s, ref, now, at);
      CleanupAgrees(s, ref, at);
    case SetLimits(id, limits) =>
      var ref' := Step(REFERENCE, ref, op).0;
      forall k | k in ref'.buckets ensures LimitsFor(ref'.tenants, k) == LimitsFor(ref.tenants, k) {}
    case Invalidate(_) =>
  }

  /** Dropping and recreating idle buckets changes no answer. */
  lemma {:induction false} EvictionUnobservable(v: Variant, s: Limiter, ref: Limiter, ops: seq<Op>, now: Seconds, used: set<Key>)
    requires v.evicts && Related(s, ref, now) && Roomy(v, s, used) && GoodRun(now, ops, used)
    ensures Outputs(v, s, ops) == Outputs(REFERENCE, ref, ops)
    decreases |ops|
  {
    if ops != [] {
      assert GoodRun(now, [ops[0]], used) by {
        assert [ops[0]][1..] == [];
      }
      StepAgrees(v, s, ref, ops[0], now, used);
      EvictionUnobservable(v, Step(v, s, ops[0]).0, Step(REFERENCE, ref, ops[0]).0, ops[1..], ClockAfter(now, ops[0]), used);
    }
  }

  /* ---------- and only then ---------- */

  const TENANT := Tenant("t")

  ghost predicate OneTenantRun(now: Seconds, ops: seq<Op>)
    decreases |ops|
  {
    ops != [] ==>
      && now <= ClockAfter(now, ops[0])
      && (ops[0].Cleanup? || (ops[0].Admit? && ops[0].keys == [TENANT]))
      && OneTenantRun(ClockAfter(now, ops[0]), ops[1..])
  }

  const EVICTING := Variant(true, Some(MAX_BUCKETS))

  function Start(l: Limits): Limiter {
    Limiter(map["t" := l], map[])
  }

  /** No run of a tenant with these limits tells the evicting limiter from the reference. */
  ghost predicate Indistinguishable(l: Limits) {
    forall ops | OneTenantRun(0.0, ops) :: Outputs(EVICTING, Start(l), ops) == Outputs(REFERENCE, Start(l), ops)
  }

  function Admits(at: Seconds, n: nat): (r: seq<Op>)
    ensures |r| == n
  {
    if n == 0 then [] else [Admit([TENANT], at)] + Admits(at, n - 1)
  }

  function AllGranted(n: nat): (r: seq<Option<bool>>)
    ensures |r| == n
  {
    if n == 0 then [] else [Some(true)] + AllGranted(n - 1)
  }

  function With(l: Limits, b: Level): Limiter {
    Limiter(map["t" := l], map[TENANT := Kept(l, b)])
  }

  lemma OneAdmit(v: Variant, l: Limits, b: Level, at: Seconds)
    ensures Step(v, With(l, b), Admit([TENANT], at)) == (With(l, Take(l, b, at).0), Some(Take(l, b, at).1))
  {
    assert [TENANT][1..] == [];
    var s' := With(l, Take(l, b, at).0);
    assert AdmitAll(v, s', [], at) == (s', true);
    assert With(l, b).buckets[TENANT := Kept(l, Take(l, b, at).0)] == s'.buckets;
  }

  lemma FirstAdmit(v: Variant, l: Limits, at: Seconds)
    requires v == EVICTING || v == REFERENCE
    ensures Step(v, Start(l), Admit([TENANT], at)) == Step(v, With(l, Fresh(l, at)), Admit([TENANT], at))
  {
    OneAdmit(v, l, Fresh(l, at), at);
    assert [TENANT][1..] == [];
    var s' := With(l, Take(l, Fresh(l, at), at).0);
    assert AdmitAll(v, s', [], at) == (s', true);
    assert Start(l).buckets[TENANT := Kept(l, Take(l, Fresh(l, at), at).0)] == s'.buckets;
  }

  lemma StillAt(l: Limits, tokens: real, at: Seconds)
    requires tokens <= l.burst as real
    ensures Available(l, Level(tokens, at, at), at) == tokens
  {
    EarnedInNoTime(l.rps);
  }

  /** `n` calls at one instant on a bucket holding `left` tokens more than that, then whatever comes next. */
  lemma {:induction false} Burst(v: Variant, l: Limits, tokens: real, left: real, at: Seconds, n: nat, rest: seq<Op>)
    requires 0.0 <= left && tokens == left + n as real && tokens <= l.burst as real
    ensures Outputs(v, With(l, Level(tokens, at, at)), Admits(at, n) + rest)
         == AllGranted(n) + Outputs(v, With(l, Level(left, at, at)), rest)
    decreases n
  {
    if n == 0 {
      EmptyConcat(rest);
      EmptyConcat(Outputs(v, With(l, Level(left, at, at)), rest));
    } else {
      Burst(v, l, tokens - 1.0, left, at, n - 1, rest);
      BurstStep(v, l, tokens, at, n, rest, With(l, Level(left, at, at)));
    }
  }

  /** One more call in front of a burst that is granted. */
  lemma BurstStep(v: Variant, l: Limits, tokens: real, at: Seconds, n: nat, rest: seq<Op>, last: Limiter)
    requires n > 0 && 1.0 <= tokens <= l.burst as real
    requires Outputs(v, With(l, Level(tokens - 1.0, at, at)), Admits(at, n - 1) + rest) == AllGranted(n - 1) + Outputs(v, last, rest)
    ensures Outputs(v, With(l, Level(tokens, at, at)), Admits(at, n) + rest) == AllGranted(n) + Outputs(v, last, rest)
  {
    var more := Admits(at, n - 1) + rest;
    BurstOnce(v, l, tokens, at, more);
    assert Outputs(v, With(l, Level(tokens, at, at)), Admits(at, n) + rest)
        == Outputs(v, With(l, Level(tokens, at, at)), [Admit([TENANT], at)] + more) by {
      AdmitsCons(at, n, rest);
    }
    GrantedOnce(n, Outputs(v, last, rest));
  }

  lemma AdmitsCons(at: Seconds, n: nat, rest: seq<Op>)
    requires n > 0
    ensures Admits(at, n) + rest == [Admit([TENANT], at)] + (Admits(at, n - 1) + rest)
  {
  }

  lemma GrantedOnce(n: nat, rest: seq<Option<bool>>)
    requires n > 0
    ensures [Some(true)] + (AllGranted(n - 1) + rest) == AllGranted(n) + rest
  {
  }

  lemma BurstOnce(v: Variant, l: Limits, tokens: real, at: Seconds, rest: seq<Op>)
    requires 1.0 <= tokens <= l.burst as real
    ensures Outputs(v, With(l, Level(tokens, at, at)), [Admit([TENANT], at)] + rest)
         == [Some(true)] + Outputs(v, With(l, Level(tokens - 1.0, at, at)), rest)
  {
    StillAt(l, tokens, at);
    OneAdmit(v, l, Level(tokens, at, at), at);
    assert ([Admit([TENANT], at)] + rest)[1..] == rest;
  }

  /** `n` calls at one instant on a bucket with less than `n` tokens: some call is refused. */
  lemma {:induction false} Starved(l: Limits, b: Level, at: Seconds, n: nat)
    requires 0.0 <= Available(l, b, at) < n as real
    ensures Outputs(REFERENCE, With(l, b), Admits(at, n)) != AllGranted(n)
    decreases n
  {
    OneAdmit(REFERENCE, l, b, at);
    var r := Take(l, b, at);
    assert Admits(at, n)[1..] == Admits(at, n - 1);
    if r.1 {
      StillAt(l, r.0.tokens, at);
      Starved(l, r.0, at, n - 1);
      assert AllGranted(n)[1..] == AllGranted(n - 1);
    } else {
      assert AllGranted(n)[0] == Some(true);
    }
  }

  lemma StartLikeFresh(v: Variant, l: Limits, at: Seconds, n: nat, rest: seq<Op>)
    requires v == EVICTING || v == REFERENCE
    requires n > 0
    ensures Outputs(v, Start(l), Admits(at, n) + rest) == Outputs(v, With(l, Fresh(l, at)), Admits(at, n) + rest)
  {
    FirstAdmit(v, l, at);
    assert (Admits(at, n) + rest)[0] == Admit([TENANT], at);
  }

  lemma {:induction false} AdmitsAreARun(at: Seconds, n: nat, rest: seq<Op>)
    requires OneTenantRun(at, rest)
    ensures OneTenantRun(at, Admits(at, n) + rest)
    decreases n
  {
    if n == 0 {
      assert Admits(at, 0) + rest == rest;
    } else {
      AdmitsAreARun(at, n - 1, rest);
      assert Admits(at, n) + rest == [Admit([TENANT], at)] + (Admits(at, n - 1) + rest);
      assert (Admits(at, n) + rest)[1..] == Admits(at, n - 1) + rest;
    }
  }

  /** An instant past the idle time at which an emptied bucket is not yet full. */
  lemma LateButNotFull(l: Limits) returns (t: Seconds)
    requires Sane(l) && !Refills(l)
    ensures t > IDLE_EVICT && 0.0 <= Earned(t, l.rps) < l.burst as real
  {
    EarnedWhenIdle(l.rps);
    if l.rps == 0 {
      t := 301.0;
    } else {
      var bit := HalfAToken(l.rps);
      t := IDLE_EVICT + bit;
      EarnedSum(IDLE_EVICT, bit, l.rps);
    }
  }

  /** The time in which half a token is earned. */
  lemma HalfAToken(rps: nat) returns (bit: Seconds)
    requires rps > 0
    ensures bit > 0.0 && Earned(bit, rps) == 0.5
  {
    var r := rps as real;
    bit := 0.5 / r;
    assert bit > 0.0 && bit * r == 0.5;
    EarnedIsProduct(bit, rps);
  }

  lemma DrainAndReturnIsARun(n: nat, t: Seconds)
    requires 0.0 <= t
    ensures OneTenantRun(0.0, DrainAndReturn(n, t))
  {
    var rest := [Cleanup(t)] + Admits(t, n);
    assert Admits(t, n) + [] == Admits(t, n) && rest[1..] == Admits(t, n);
    AdmitsAreARun(t, n, []);
    AdmitsAreARun(0.0, n, rest);
  }

  /** Drain the bucket, let the clean-up run, and ask as often again. */
  function DrainAndReturn(n: nat, t: Seconds): seq<Op> {
    Admits(0.0, n) + ([Cleanup(t)] + Admits(t, n))
  }

  /** A limiter that drops the bucket grants the whole run; one that keeps it goes on with the emptied bucket. */
  lemma DrainAndReturnAnswers(l: Limits, n: nat, t: Seconds)
    requires n > 0 && l.burst == n && t > IDLE_EVICT
    ensures Outputs(EVICTING, Start(l), DrainAndReturn(n, t)) == AllGranted(n) + ([None] + AllGranted(n))
    ensures Outputs(REFERENCE, Start(l), DrainAndReturn(n, t))
         == AllGranted(n) + ([None] + Outputs(REFERENCE, With(l, Level(0.0, 0.0, 0.0)), Admits(t, n)))
  {
    DrainedThen(EVICTING, l, n, [Cleanup(t)] + Admits(t, n));
    DrainedThen(REFERENCE, l, n, [Cleanup(t)] + Admits(t, n));
    IdleThen(l, t, n);
  }

  lemma DrainedThen(v: Variant, l: Limits, n: nat, rest: seq<Op>)
    requires (v == EVICTING || v == REFERENCE) && n > 0 && l.burst == n
    ensures Outputs(v, Start(l), Admits(0.0, n) + rest) == AllGranted(n) + Outputs(v, With(l, Level(0.0, 0.0, 0.0)), rest)
  {
    StartLikeFresh(v, l, 0.0, n, rest);
    Burst(v, l, n as real, 0.0, 0.0, n, rest);
  }

  /** The emptied bucket after the cleanup: dropped and new for one limiter, still there for the other. */
  lemma IdleThen(l: Limits, t: Seconds, n: nat)
    requires t > IDLE_EVICT && 0 < n == l.burst
    ensures var empty := With(l, Level(0.0, 0.0, 0.0));
            var rest := [Cleanup(t)] + Admits(t, n);
            && Outputs(EVICTING, empty, rest) == [None] + AllGranted(n)
            && Outputs(REFERENCE, empty, rest) == [None] + Outputs(REFERENCE, empty, Admits(t, n))
  {
    var empty := With(l, Level(0.0, 0.0, 0.0));
    var rest := [Cleanup(t)] + Admits(t, n);
    assert Admits(t, n) + [] == Admits(t, n) && rest[1..] == Admits(t, n);
    assert Step(REFERENCE, empty, Cleanup(t)) == (empty, None);
    assert Step(EVICTING, empty, Cleanup(t)) == (Start(l), None);
    StartLikeFresh(EVICTING, l, t, n, []);
    Burst(EVICTING, l, n as real, 0.0, t, n, []);
  }

  lemma Differ(a: seq<Option<bool>>, b: seq<Option<bool>>, c: seq<Option<bool>>)
    requires b != c
    ensures a + ([None] + b) != a + ([None] + c)
  {
    assert (a + ([None] + b))[|a| + 1..] == b;
    assert (a + ([None] + c))[|a| + 1..] == c;
  }

  lemma {:induction false} OneTenantRunIsGood(now: Seconds, ops: seq<Op>)
    requires OneTenantRun(now, ops)
    ensures GoodRun(now, ops, {TENANT})
    decreases |ops|
  {
    if ops != [] {
      OneTenantRunIsGood(ClockAfter(now, ops[0]), ops[1..]);
    }
  }

  /** Eviction is unobservable for a tenant if and only if burst <= 300 * rps. */
  lemma EvictionUnobservableIff(l: Limits)
    requires Sane(l)
    ensures Indistinguishable(l) <==> l.burst <= 300 * l.rps
  {
    if Refills(l) {
      forall ops | OneTenantRun(0.0, ops)
        ensures Outputs(EVICTING, Start(l), ops) == Outputs(REFERENCE, Start(l), ops)
      {
        OneTenantRunIsGood(0.0, ops);
        EvictionUnobservable(EVICTING, Start(l), Start(l), ops, 0.0, {TENANT});
      }
    } else {
      var t := LateButNotFull(l);
      assert 0.0 < l.burst as real;
      var n, empty := l.burst, Level(0.0, 0.0, 0.0);
      DrainAndReturnIsARun(n, t);
      DrainAndReturnAnswers(l, n, t);
      assert Available(l, empty, t) == Earned(t, l.rps) by { assert t - 0.0 == t; }
      Starved(l, empty, t, n);
      Differ(AllGranted(n), AllGranted(n), Outputs(REFERENCE, With(l, empty), Admits(t, n)));
    }
  }
}
