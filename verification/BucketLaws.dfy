/** What one request means for the buckets: who is admitted, which bucket pays, and how many buckets there are. */
module BucketLaws {
  import opened Common
  import opened TokenBucket
  import opened BucketMaps

  /** A kept bucket admits when it has a whole token by then, and a new one when its burst allows any. */
  predicate Admits(l: Limits, buckets: map<Key, Kept>, k: Key, now: Seconds) {
    if k in buckets then
      var b := buckets[k];
      1.0 <= b.level.tokens + Earned(now - b.level.lastFill, b.limits.rps) && 1 <= b.limits.burst
    else 1 <= l.burst
  }

  /** Other buckets stay as they are; the bucket itself keeps its limits and pays one token if it admits. */
  lemma RequestPays(v: Variant, l: Limits, buckets: map<Key, Kept>, k: Key, now: Seconds)
    ensures var (after, ok) := Request(v, l, buckets, k, now);
            && (ok <==> Admits(l, buckets, k, now))
            && (forall other | other != k :: (other in after <==> other in buckets) && (other in buckets ==> after[other] == buckets[other]))
            && (k in buckets ==> k in after && after[k].limits == buckets[k].limits)
            && (k !in buckets ==> (k in after <==> v.cap.None? || |buckets| < v.cap.value))
            && (k !in buckets && k in after ==> after[k].limits == l && after[k].level.tokens == l.burst as real - if ok then 1.0 else 0.0)
  {
    EarnedInNoTime(l.rps);
    if k in buckets {
      var b := buckets[k];
      CappedIff(b.level.tokens + Earned(now - b.level.lastFill, b.limits.rps), b.limits.burst);
    } else {
      assert Available(l, Fresh(l, now), now) == l.burst as real;
      CappedIff(l.burst as real, l.burst);
    }
  }

  lemma CappedIff(filled: real, burst: int)
    ensures Capped(filled, burst as real) >= 1.0 <==> filled >= 1.0 && burst >= 1
  {
  }

  /**
   The two buckets of a public request: both must admit, the second is asked only if the first did, and a
   refusal by the first leaves the second as it was.
   */
  lemma BothMustAdmit(v: Variant, s: Limiter, a: Key, b: Key, now: Seconds)
    requires a != b
    ensures var (s', ok) := AdmitAll(v, s, [a, b], now);
            var first := Admits(LimitsFor(s.tenants, a), s.buckets, a, now);
            && (ok <==> first && Admits(LimitsFor(s.tenants, b), s.buckets, b, now))
            && (!first ==> (b in s'.buckets <==> b in s.buckets) && (b in s.buckets ==> s'.buckets[b] == s.buckets[b]))
            && s'.tenants == s.tenants
  {
    var l := LimitsFor(s.tenants, a);
    var (mid, first) := Request(v, l, s.buckets, a, now);
    RequestPays(v, l, s.buckets, a, now);
    FirstThenRest(v, s, a, [b], now);
    if first {
      RequestPays(v, LimitsFor(s.tenants, b), mid, b, now);
      FirstThenRest(v, s.(buckets := mid), b, [], now);
      assert [a] + [b] == [a, b] && [b] + [] == [b];
    } else {
      assert [a] + [b] == [a, b];
    }
  }

  lemma FirstThenRest(v: Variant, s: Limiter, k: Key, rest: seq<Key>, now: Seconds)
    ensures var (buckets, ok) := Request(v, LimitsFor(s.tenants, k), s.buckets, k, now);
            AdmitAll(v, s, [k] + rest, now)
              == if ok then AdmitAll(v, s.(buckets := buckets), rest, now) else (s.(buckets := buckets), false)
  {
    assert ([k] + rest)[1..] == rest;
  }

  /** A tenant whose bucket was dropped starts with a whole burst of its limits. */
  lemma ForgottenStartsFull(v: Variant, s: Limiter, id: string, limits: Limits, now: Seconds)
    ensures var s' := Step(v, s, Invalidate(id)).0;
            && Admits(LimitsFor(s'.tenants, Tenant(id)), s'.buckets, Tenant(id), now) == (1 <= LimitsFor(s.tenants, Tenant(id)).burst)
            && forall k | k != Tenant(id) :: (k in s'.buckets <==> k in s.buckets) && (k in s.buckets ==> s'.buckets[k] == s.buckets[k])
    ensures var s' := Step(v, s, SetLimits(id, limits)).0;
            LimitsFor(s'.tenants, Tenant(id)) == limits && (Admits(limits, s'.buckets, Tenant(id), now) <==> 1 <= limits.burst)
  {
  }

  /** A public request is limited to 200 a second for its route, 30 for its license and 5 for its address, with twice that at once. */
  lemma PublicLimits(tenants: map<string, Limits>, route: string, hash: string, addr: string)
    ensures LimitsFor(tenants, Path(route)).rps == 200 && LimitsFor(tenants, Lic(hash)).rps == 30 && LimitsFor(tenants, Ip(addr)).rps == 5
    ensures forall k: Key :: !k.Tenant? ==> LimitsFor(tenants, k).burst == 2 * LimitsFor(tenants, k).rps
  {
  }

  /* ---------- how many buckets ---------- */

  predicate WithinCap(v: Variant, s: Limiter) {
    v.cap.Some? ==> |s.buckets| <= v.cap.value
  }

  lemma {:induction false} AdmitKeepsCap(v: Variant, s: Limiter, keys: seq<Key>, now: Seconds)
    requires WithinCap(v, s)
    ensures WithinCap(v, AdmitAll(v, s, keys, now).0)
    decreases |keys|
  {
    if keys != [] {
      var (buckets, ok) := Request(v, LimitsFor(s.tenants, keys[0]), s.buckets, keys[0], now);
      RequestKeepsCap(v, LimitsFor(s.tenants, keys[0]), s.buckets, keys[0], now);
      if ok {
        AdmitKeepsCap(v, s.(buckets := buckets), keys[1..], now);
      }
    }
  }

  lemma RequestKeepsCap(v: Variant, l: Limits, buckets: map<Key, Kept>, k: Key, now: Seconds)
    requires v.cap.Some? ==> |buckets| <= v.cap.value
    ensures v.cap.Some? ==> |Request(v, l, buckets, k, now).0| <= v.cap.value
  {
    var after := Request(v, l, buckets, k, now).0;
    if k in buckets {
      assert after.Keys == buckets.Keys;
      DropsKeepCap(buckets, after);
    }
  }

  lemma DropsKeepCap(m: map<Key, Kept>, m': map<Key, Kept>)
    requires m'.Keys <= m.Keys
    ensures |m'| <= |m|
  {
    SubsetCard(m'.Keys, m.Keys);
    assert |m'| == |m'.Keys| && |m| == |m.Keys|;
  }

  function StateAfter(v: Variant, s: Limiter, ops: seq<Op>): Limiter
    decreases |ops|
  {
    if ops == [] then s else StateAfter(v, Step(v, s, ops[0]).0, ops[1..])
  }

  /** In every run there are at most as many buckets as the cap allows. */
  lemma {:induction false} CapHolds(v: Variant, s: Limiter, ops: seq<Op>)
    requires WithinCap(v, s)
    ensures WithinCap(v, StateAfter(v, s, ops))
    decreases |ops|
  {
    if ops != [] {
      var s' := Step(v, s, ops[0]).0;
      if ops[0].Admit? {
        AdmitKeepsCap(v, s, ops[0].keys, ops[0].at);
      } else {
        DropsKeepCap(s.buckets, s'.buckets);
      }
      CapHolds(v, s', ops[1..]);
    }
  }
}
