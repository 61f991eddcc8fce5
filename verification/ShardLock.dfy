/** The sharded activation lock: shard choice under 32-bit wrap-around, and mutual exclusion per license. */
module ShardLock {
  import opened Common

  const SHARDS: nat := 256
  const WRAP: nat := 0x1_0000_0000

  type Byte = b: int | 0 <= b < 256

  /** The base-33 polynomial over the bytes, without wrap-around. */
  function Polynomial(id: seq<Byte>): nat {
    if id == [] then 0 else Polynomial(id[..|id| - 1]) * 33 + id[|id| - 1]
  }

  lemma WrapStep(sum: nat, poly: nat, b: Byte)
    requires sum == poly % WRAP
    ensures (sum * 33 + b) % WRAP == (poly * 33 + b) % WRAP
  {
    var q := poly / WRAP;
    assert poly == q * WRAP + sum;
    assert poly * 33 + b == (q * 33) * WRAP + (sum * 33 + b);
    ModOfSum(q * 33, sum * 33 + b);
  }

  lemma ModOfSum(q: nat, r: nat)
    ensures (q * WRAP + r) % WRAP == r % WRAP
  {
    var k := r / WRAP;
    assert r == k * WRAP + r % WRAP;
    assert q * WRAP + r == (q + k) * WRAP + r % WRAP;
  }

  lemma WrapThenShard(poly: nat)
    ensures poly % WRAP % SHARDS == poly % SHARDS
  {
    var q := poly / WRAP;
    assert poly == (q * 0x100_0000) * SHARDS + poly % WRAP;
  }

  /** The wrapping 32-bit loop picks the shard the unbounded polynomial would pick. */
  method Shard(id: seq<Byte>) returns (shard: nat)
    ensures shard == Polynomial(id) % SHARDS && shard < SHARDS
  {
    var sum: nat := 0;
    for i := 0 to |id|
      invariant sum == Polynomial(id[..i]) % WRAP
    {
      assert id[..i + 1][..i] == id[..i];
      WrapStep(sum, Polynomial(id[..i]), id[i]);
      sum := (sum * 33 + id[i]) % WRAP;
    }
    assert id[..|id|] == id;
    WrapThenShard(Polynomial(id));
    shard := sum % SHARDS;
  }

  /* ---------- who is inside ---------- */

  datatype Step = Lock(thread: nat, id: seq<Byte>) | Unlock(thread: nat)

  /** `owner` maps a held shard to its thread, `inside` a thread to the license id it locked. */
  datatype State = State(owner: map<nat, nat>, inside: map<nat, seq<Byte>>)

  function ShardOf(id: seq<Byte>): nat {
    Polynomial(id) % SHARDS
  }

  /** A blocked Lock leaves the state alone; a thread unlocks what it locked. */
  function Exec(s: State, step: Step): State {
    match step
    case Lock(t, id) =>
      if t in s.inside || ShardOf(id) in s.owner then s
      else State(s.owner[ShardOf(id) := t], s.inside[t := id])
    case Unlock(t) =>
      if t !in s.inside then s
      else State(s.owner - {ShardOf(s.inside[t])}, s.inside - {t})
  }

  function Run(s: State, steps: seq<Step>): State
    decreases |steps|
  {
    if steps == [] then s else Run(Exec(s, steps[0]), steps[1..])
  }

  /** A lock gets in exactly when its thread is outside and its shard is free; an unlock lets its thread out and frees the shard. */
  lemma LockGetsInIff(s: State, t: nat, id: seq<Byte>)
    ensures var s' := Exec(s, Lock(t, id));
            if t !in s.inside && Polynomial(id) % 256 !in s.owner
            then t in s'.inside && s'.inside[t] == id && Polynomial(id) % 256 in s'.owner && s'.owner[Polynomial(id) % 256] == t
            else s' == s
    ensures t in s.inside ==>
              var s' := Exec(s, Unlock(t)); t !in s'.inside && Polynomial(s.inside[t]) % 256 !in s'.owner
  {
  }

  ghost predicate Inv(s: State) {
    && (forall t | t in s.inside :: ShardOf(s.inside[t]) in s.owner && s.owner[ShardOf(s.inside[t])] == t)
    && (forall k | k in s.owner :: k < SHARDS && s.owner[k] in s.inside && ShardOf(s.inside[s.owner[k]]) == k)
  }

  lemma {:induction false} RunKeepsInv(s: State, steps: seq<Step>)
    requires Inv(s)
    ensures Inv(Run(s, steps))
    decreases |steps|
  {
    if steps != [] {
      RunKeepsInv(Exec(s, steps[0]), steps[1..]);
    }
  }

  /** In no run do two threads hold the same license id, nor two ids of one shard. */
  lemma MutualExclusion(steps: seq<Step>, t: nat, u: nat)
    requires var s := Run(State(map[], map[]), steps);
             t in s.inside && u in s.inside && ShardOf(s.inside[t]) == ShardOf(s.inside[u])
    ensures t == u
  {
    RunKeepsInv(State(map[], map[]), steps);
  }
}
