/**
 The in-memory cache: a bounded LRU of entries with expiry. The library LRU is a sequence ordered by
 recency, oldest first, with distinct keys and at most `cap` of them.
 */
module Lru {
  import opened Common
  import opened Domain

  /** A negative entry has no payload; no expiry means it stays until invalidated or evicted. */
  datatype Entry<V> = Entry(payload: Option<V>, expiresAt: Option<Time>)

  datatype Item<V> = Item(key: string, entry: Entry<V>)

  predicate IsExpired<V>(e: Entry<V>, now: Time) {
    e.expiresAt.Some? && now > e.expiresAt.value
  }

  function Filter<V>(items: seq<Item<V>>, keep: Item<V> -> bool): (r: seq<Item<V>>)
    ensures |r| <= |items|
    ensures forall it | it in r :: it in items && keep(it)
    ensures forall it | it in items && keep(it) :: it in r
  {
    if items == [] then [] else
      (if keep(items[0]) then [items[0]] else []) + Filter(items[1..], keep)
  }

  function Remove<V>(items: seq<Item<V>>, key: string): (r: seq<Item<V>>) {
    Filter(items, (it: Item<V>) => it.key != key)
  }

  function Lookup<V>(items: seq<Item<V>>, key: string): (r: Option<Entry<V>>)
    ensures r.Some? ==> Item(key, r.value) in items
    ensures r.None? ==> forall it | it in items :: it.key != key
  {
    if items == [] then None
    else if items[0].key == key then Some(items[0].entry)
    else Lookup(items[1..], key)
  }

  /** Reading promotes a live entry and removes an expired one. */
  function Read<V>(items: seq<Item<V>>, key: string, now: Time): (r: (seq<Item<V>>, Option<Entry<V>>)) {
    var found := Lookup(items, key);
    if found.None? then (items, None)
    else if IsExpired(found.value, now) then (Remove(items, key), None)
    else (Remove(items, key) + [Item(key, found.value)], found)
  }

  /** Adding makes the entry the most recent and evicts the oldest when over capacity. */
  function Add<V>(items: seq<Item<V>>, cap: nat, key: string, e: Entry<V>): (r: seq<Item<V>>) {
    var all := Remove(items, key) + [Item(key, e)];
    if |all| > cap then all[1..] else all
  }

  function Expiry(ttl: Time, now: Time): Option<Time> {
    if ttl > 0 then Some(now + ttl) else None
  }

  function Write<V>(items: seq<Item<V>>, cap: nat, key: string, payload: Option<V>, ttl: Time, now: Time): (r: seq<Item<V>>) {
    Add(items, cap, key, Entry(payload, Expiry(ttl, now)))
  }

  predicate HasPrefix(key: string, prefix: string) {
    prefix <= key
  }

  function RemovePrefix<V>(items: seq<Item<V>>, prefix: string): (r: seq<Item<V>>) {
    Filter(items, (it: Item<V>) => !HasPrefix(it.key, prefix))
  }

  /** Drops expired entries, oldest first, at most `limit` of them. */
  function DropExpired<V>(items: seq<Item<V>>, limit: int, now: Time): (r: seq<Item<V>>) {
    if items == [] || limit <= 0 then items
    else if IsExpired(items[0].entry, now) then DropExpired(items[1..], limit - 1, now)
    else [items[0]] + DropExpired(items[1..], limit, now)
  }

  predicate Distinct<V>(items: seq<Item<V>>) {
    forall i, j | 0 <= i < j < |items| :: items[i].key != items[j].key
  }

  predicate Ok<V>(items: seq<Item<V>>, cap: nat) {
    Distinct(items) && |items| <= cap
  }

  /* ---------- distinct keys ---------- */

  lemma DistinctCons<V>(it: Item<V>, items: seq<Item<V>>)
    requires Distinct(items) && forall x | x in items :: x.key != it.key
    ensures Distinct([it] + items)
  {
    var all := [it] + items;
    forall i, j | 0 <= i < j < |all| ensures all[i].key != all[j].key {
      assert all[j] == items[j - 1] && all[j] in items;
    }
  }

  lemma {:induction false} FilterDistinct<V>(items: seq<Item<V>>, keep: Item<V> -> bool)
    requires Distinct(items)
    ensures Distinct(Filter(items, keep))
    decreases |items|
  {
    if items != [] {
      FilterDistinct(items[1..], keep);
      if keep(items[0]) {
        DistinctCons(items[0], Filter(items[1..], keep));
        assert Filter(items, keep) == [items[0]] + Filter(items[1..], keep);
      } else {
        assert Filter(items, keep) == Filter(items[1..], keep);
      }
    }
  }

  /** Cleaning up only drops expired entries, and drops them all unless it stops at the limit. */
  lemma {:induction false} DropExpiredOk<V>(items: seq<Item<V>>, limit: int, now: Time)
    requires Distinct(items)
    ensures var r := DropExpired(items, limit, now);
            && Distinct(r) && |r| <= |items| <= |r| + (if limit > 0 then limit else 0)
            && (forall it | it in r :: it in items)
            && (forall it | it in items && !IsExpired(it.entry, now) :: it in r)
            && (|items| < |r| + limit ==> forall it | it in r :: !IsExpired(it.entry, now))
    decreases |items|
  {
    if items != [] && limit > 0 {
      if IsExpired(items[0].entry, now) {
        DropExpiredOk(items[1..], limit - 1, now);
      } else {
        DropExpiredOk(items[1..], limit, now);
        DistinctCons(items[0], DropExpired(items[1..], limit, now));
      }
    }
  }

  lemma AppendDistinct<V>(items: seq<Item<V>>, it: Item<V>)
    requires Distinct(items) && forall x | x in items :: x.key != it.key
    ensures Distinct(items + [it])
  {
    var all := items + [it];
    forall i, j | 0 <= i < j < |all| ensures all[i].key != all[j].key {
      assert all[i] == items[i] && all[i] in items;
    }
  }

  /** Removing a present key makes room for one. */
  lemma {:induction false} RemoveShrinks<V>(items: seq<Item<V>>, key: string)
    requires Lookup(items, key).Some?
    ensures |Remove(items, key)| < |items|
    decreases |items|
  {
    if items[0].key != key {
      RemoveShrinks(items[1..], key);
      assert Remove(items, key) == [items[0]] + Remove(items[1..], key);
    } else {
      assert Remove(items, key) == Remove(items[1..], key);
    }
  }

  /* ---------- what each operation keeps ---------- */

  lemma ReadOk<V>(items: seq<Item<V>>, cap: nat, key: string, now: Time)
    requires Ok(items, cap)
    ensures Ok(Read(items, key, now).0, cap)
    ensures forall it | it in Read(items, key, now).0 :: it in items
    ensures var e := Read(items, key, now).1; e.Some? ==> Item(key, e.value) in items && !IsExpired(e.value, now)
  {
    FilterDistinct(items, (it: Item<V>) => it.key != key);
    var found := Lookup(items, key);
    if found.Some? {
      RemoveShrinks(items, key);
      AppendDistinct(Remove(items, key), Item(key, found.value));
    }
  }

  lemma WriteOk<V>(items: seq<Item<V>>, cap: nat, key: string, payload: Option<V>, ttl: Time, now: Time)
    requires Ok(items, cap) && cap > 0
    ensures var r := Write(items, cap, key, payload, ttl, now);
            && Ok(r, cap)
            && (forall it | it in r && it.key != key :: it in items)
            && (forall it | it in r && it.key == key :: it.entry == Entry(payload, Expiry(ttl, now)))
            && Lookup(r, key) == Some(Entry(payload, Expiry(ttl, now)))
  {
    var e := Entry(payload, Expiry(ttl, now));
    FilterDistinct(items, (it: Item<V>) => it.key != key);
    AppendDistinct(Remove(items, key), Item(key, e));
    var all := Remove(items, key) + [Item(key, e)];
    var r := Write(items, cap, key, payload, ttl, now);
    assert forall it | it in r :: it in all;
    assert r[|r| - 1] == Item(key, e);
    assert Item(key, e) in r;
  }

  lemma RemoveOk<V>(items: seq<Item<V>>, cap: nat, key: string)
    requires Ok(items, cap)
    ensures Ok(Remove(items, key), cap)
    ensures forall it :: it in Remove(items, key) <==> it in items && it.key != key
  {
    FilterDistinct(items, (it: Item<V>) => it.key != key);
  }

  lemma RemovePrefixOk<V>(items: seq<Item<V>>, cap: nat, prefix: string)
    requires Ok(items, cap)
    ensures Ok(RemovePrefix(items, prefix), cap)
    ensures forall it :: it in RemovePrefix(items, prefix) <==> it in items && !HasPrefix(it.key, prefix)
  {
    FilterDistinct(items, (it: Item<V>) => !HasPrefix(it.key, prefix));
  }

  /* ---------- what was just written is there ---------- */

  lemma FilterCons<V>(it: Item<V>, rest: seq<Item<V>>, q: Item<V> -> bool)
    ensures Filter([it] + rest, q) == (if q(it) then [it] else []) + Filter(rest, q)
  {
    assert ([it] + rest)[1..] == rest;
  }

  lemma {:induction false} FilterLast<V>(items: seq<Item<V>>, keep: Item<V> -> bool)
    requires items != [] && keep(items[|items| - 1])
    ensures var r := Filter(items, keep); r != [] && r[|r| - 1] == items[|items| - 1]
    decreases |items|
  {
    if |items| > 1 {
      FilterLast(items[1..], keep);
    }
  }

  lemma {:induction false} LookupInDistinct<V>(items: seq<Item<V>>, it: Item<V>)
    requires Distinct(items) && it in items
    ensures Lookup(items, it.key) == Some(it.entry)
    decreases |items|
  {
    if items[0] != it {
      LookupInDistinct(items[1..], it);
      var i :| 0 <= i < |items| && items[i] == it;
      assert items[0].key != items[i].key;
    }
  }

  lemma WriteIsNewest<V>(items: seq<Item<V>>, cap: nat, key: string, payload: Option<V>, ttl: Time, now: Time)
    requires cap > 0
    ensures var r := Write(items, cap, key, payload, ttl, now);
            r != [] && r[|r| - 1] == Item(key, Entry(payload, Expiry(ttl, now)))
  {
  }

  /** An entry among the `n` most recent. */
  ghost predicate Recent<V>(items: seq<Item<V>>, it: Item<V>, n: nat) {
    exists i | 0 <= i < |items| && |items| - n <= i :: items[i] == it
  }

  lemma {:induction false} FilterRecent<V>(items: seq<Item<V>>, keep: Item<V> -> bool, it: Item<V>, n: nat)
    requires Recent(items, it, n) && keep(it)
    ensures Recent(Filter(items, keep), it, n)
    decreases |items|
  {
    var i :| 0 <= i < |items| && |items| - n <= i && items[i] == it;
    var rest, kept := items[1..], Filter(items[1..], keep);
    if i > 0 {
      assert rest[i - 1] == it;
      FilterRecent(rest, keep, it, n);
      var j :| 0 <= j < |kept| && |kept| - n <= j && kept[j] == it;
      var r := Filter(items, keep);
      assert r[j + |r| - |kept|] == it;
    } else {
      assert Filter(items, keep)[0] == it;
    }
  }

  /** With room for it and the new one, writing another key does not push out a recent entry. */
  lemma WriteKeepsRecent<V>(items: seq<Item<V>>, cap: nat, key: string, payload: Option<V>, ttl: Time, now: Time, it: Item<V>, n: nat)
    requires Recent(items, it, n) && n < cap && it.key != key
    ensures Recent(Write(items, cap, key, payload, ttl, now), it, n + 1)
  {
    FilterRecent(items, (x: Item<V>) => x.key != key, it, n);
    var kept := Remove(items, key);
    var all := kept + [Item(key, Entry(payload, Expiry(ttl, now)))];
    var i :| 0 <= i < |kept| && |kept| - n <= i && kept[i] == it;
    assert all[i] == it;
    assert |all| > cap ==> all[1..][i - 1] == it;
  }

  /** With room for two, writing another key does not push out the newest entry. */
  lemma WriteKeepsNewest<V>(items: seq<Item<V>>, cap: nat, key: string, payload: Option<V>, ttl: Time, now: Time)
    requires cap >= 2 && items != [] && items[|items| - 1].key != key
    ensures items[|items| - 1] in Write(items, cap, key, payload, ttl, now)
  {
    assert Recent(items, items[|items| - 1], 1);
    WriteKeepsRecent(items, cap, key, payload, ttl, now, items[|items| - 1], 1);
  }

  /** With room left a write pushes nothing out. */
  lemma WriteWithRoom<V>(items: seq<Item<V>>, cap: nat, key: string, payload: Option<V>, ttl: Time, now: Time)
    requires |items| < cap
    ensures |Write(items, cap, key, payload, ttl, now)| <= |items| + 1
    ensures forall it | it in items && it.key != key :: it in Write(items, cap, key, payload, ttl, now)
  {
    var kept := Remove(items, key);
    assert |kept| <= |items|;
    forall it | it in items && it.key != key ensures it in kept {
    }
  }

  /* ---------- the cache as an object ---------- */

  class L1Cache<V(==)> {
    const maxEntries: nat
    var items: seq<Item<V>>

    ghost predicate Valid()
      reads this
    {
      maxEntries > 0 && Ok(items, maxEntries)
    }

    constructor (maxEntries: nat)
      requires maxEntries > 0
      ensures Valid() && this.maxEntries == maxEntries && items == []
    {
      this.maxEntries := maxEntries;
      items := [];
    }

    method Get(key: string, now: Time) returns (e: Option<Entry<V>>)
      requires Valid()
      modifies this
      ensures Valid() && (items, e) == Read(old(items), key, now)
    {
      ReadOk(items, maxEntries, key, now);
      e := Lookup(items, key);
      if e.None? {
        return;
      }
      if IsExpired(e.value, now) {
        items := Remove(items, key);
        return None;
      }
      items := Remove(items, key) + [Item(key, e.value)];
    }

    method Set(key: string, payload: Option<V>, ttl: Time, now: Time)
      requires Valid()
      modifies this
      ensures Valid() && items == Write(old(items), maxEntries, key, payload, ttl, now)
    {
      WriteOk(items, maxEntries, key, payload, ttl, now);
      var e := Entry(payload, if ttl > 0 then Some(now + ttl) else None);
      items := Remove(items, key) + [Item(key, e)];
      if |items| > maxEntries {
        items := items[1..];
      }
    }

    method Invalidate(key: string)
      requires Valid()
      modifies this
      ensures Valid() && items == Remove(old(items), key)
    {
      RemoveOk(items, maxEntries, key);
      items := Remove(items, key);
    }

    /** Walks a snapshot of the keys and removes those with the prefix. */
    method InvalidateAll(prefix: string)
      requires Valid()
      modifies this
      ensures Valid() && items == RemovePrefix(old(items), prefix)
    {
      RemovePrefixOk(items, maxEntries, prefix);
      items := DropPrefixed(items, prefix);
    }

    /** Removes expired entries, at most `limit` of them, oldest first; answers how many it removed. */
    method CleanupExpired(limit: int, now: Time) returns (removed: nat)
      requires Valid()
      modifies this
      ensures Valid() && items == DropExpired(old(items), limit, now) && removed == |old(items)| - |items|
    {
      DropExpiredOk(items, limit, now);
      var before := |items|;
      items := Sweep(items, limit, now);
      removed := before - |items|;
    }
  }

  /** The walk over a snapshot of the keys. */
  method DropPrefixed<V>(was: seq<Item<V>>, prefix: string) returns (items: seq<Item<V>>)
    ensures items == RemovePrefix(was, prefix)
  {
    items := was;
    var keys := Keys(items);
    NoneSeen(was, prefix);
    for n := 0 to |keys|
      invariant items == KeptAfter(was, prefix, keys, n)
    {
      OneSeen(was, prefix, keys, n);
      if prefix <= keys[n] {
        items := Remove(items, keys[n]);
      }
    }
    AllSeen(was, prefix);
  }

  /** What is left when the walk has seen so many of the keys. */
  function KeptAfter<V>(was: seq<Item<V>>, prefix: string, keys: seq<string>, n: nat): seq<Item<V>>
    requires n <= |keys|
  {
    Filter(was, Spared(prefix, keys[..n]))
  }

  lemma NoneSeen<V>(was: seq<Item<V>>, prefix: string)
    ensures KeptAfter(was, prefix, Keys(was), 0) == was
  {
    FilterAll(was, Spared(prefix, Keys(was)[..0]));
  }

  lemma OneSeen<V>(was: seq<Item<V>>, prefix: string, keys: seq<string>, n: nat)
    requires n < |keys|
    ensures KeptAfter(was, prefix, keys, n + 1)
         == if prefix <= keys[n] then Remove(KeptAfter(was, prefix, keys, n), keys[n]) else KeptAfter(was, prefix, keys, n)
  {
    var done, key := keys[..n], keys[n];
    assert keys[..n + 1] == done + [key];
    if prefix <= key {
      FilterTwice(was, Spared(prefix, done), (it: Item<V>) => it.key != key, Spared(prefix, keys[..n + 1]));
    } else {
      FilterSame(was, Spared(prefix, done), Spared(prefix, keys[..n + 1]));
    }
  }

  /** Once every key has been seen, what is spared is what has no prefix. */
  lemma AllSeen<V>(was: seq<Item<V>>, prefix: string)
    ensures KeptAfter(was, prefix, Keys(was), |Keys(was)|) == RemovePrefix(was, prefix)
  {
    var keys := Keys(was);
    assert keys[..|keys|] == keys;
    forall it | it in was ensures it.key in keys {
      var i :| 0 <= i < |was| && was[i] == it;
      assert keys[i] == it.key;
    }
    FilterSame(was, Spared(prefix, keys), (it: Item<V>) => !HasPrefix(it.key, prefix));
  }

  /** The walk over the keys, oldest first, that stops at the limit. */
  method Sweep<V>(items: seq<Item<V>>, limit: int, now: Time) returns (r: seq<Item<V>>)
    ensures r == DropExpired(items, limit, now)
  {
    var kept, todo, left := [], items, limit;
    while todo != [] && left > 0
      invariant Pending(kept, todo, left, now) == DropExpired(items, limit, now)
      decreases |todo|
    {
      DropOne(kept, todo, left, now);
      if IsExpired(todo[0].entry, now) {
        left := left - 1;
      } else {
        kept := kept + [todo[0]];
      }
      todo := todo[1..];
    }
    r := kept + todo;
  }

  /** What a clean-up ends with that has kept some items and may still remove `left` of the others. */
  function Pending<V>(kept: seq<Item<V>>, todo: seq<Item<V>>, left: int, now: Time): seq<Item<V>> {
    kept + DropExpired(todo, left, now)
  }

  lemma DropOne<V>(kept: seq<Item<V>>, todo: seq<Item<V>>, left: int, now: Time)
    requires todo != [] && left > 0
    ensures Pending(kept, todo, left, now)
         == if IsExpired(todo[0].entry, now) then Pending(kept, todo[1..], left - 1, now)
            else Pending(kept + [todo[0]], todo[1..], left, now)
  {
    assert todo == [todo[0]] + todo[1..];
  }

  function Keys<V>(items: seq<Item<V>>): seq<string> {
    seq(|items|, i requires 0 <= i < |items| => items[i].key)
  }

  function Spared<V>(prefix: string, done: seq<string>): Item<V> -> bool {
    (it: Item<V>) => !(it.key in done && HasPrefix(it.key, prefix))
  }

  lemma {:induction false} FilterSame<V>(items: seq<Item<V>>, p: Item<V> -> bool, q: Item<V> -> bool)
    requires forall it | it in items :: p(it) == q(it)
    ensures Filter(items, p) == Filter(items, q)
    decreases |items|
  {
    if items != [] {
      FilterSame(items[1..], p, q);
    }
  }

  lemma {:induction false} FilterAll<V>(items: seq<Item<V>>, p: Item<V> -> bool)
    requires forall it | it in items :: p(it)
    ensures Filter(items, p) == items
    decreases |items|
  {
    if items != [] {
      FilterAll(items[1..], p);
    }
  }

  lemma {:induction false} FilterTwice<V>(items: seq<Item<V>>, p: Item<V> -> bool, q: Item<V> -> bool, both: Item<V> -> bool)
    requires forall it | it in items :: both(it) == (p(it) && q(it))
    ensures Filter(Filter(items, p), q) == Filter(items, both)
    decreases |items|
  {
    if items != [] {
      var it, rest := items[0], items[1..];
      FilterTwice(rest, p, q, both);
      var kept := Filter(rest, p);
      assert Filter(items, both) == (if both(it) then [it] else []) + Filter(rest, both);
      if p(it) {
        FilterCons(it, kept, q);
        assert Filter(items, p) == [it] + kept;
      } else {
        assert Filter(items, p) == kept;
      }
    }
  }
}
