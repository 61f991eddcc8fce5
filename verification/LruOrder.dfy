/** The cache evicts what was read or written least recently, over every run of its operations. */
module LruOrder {
  import opened Common
  import opened Domain
  import opened Lru

  datatype Op<V> =
    | Get(key: string, now: Time)
    | Set(key: string, payload: Option<V>, ttl: Time, now: Time)
    | Invalidate(key: string)
    | InvalidateAll(prefix: string)
    | Cleanup(limit: int, now: Time)

  function Exec<V>(cap: nat, items: seq<Item<V>>, op: Op<V>): seq<Item<V>> {
    match op
    case Get(key, now) => Read(items, key, now).0
    case Set(key, payload, ttl, now) => Write(items, cap, key, payload, ttl, now)
    case Invalidate(key) => Remove(items, key)
    case InvalidateAll(prefix) => RemovePrefix(items, prefix)
    case Cleanup(limit, now) => DropExpired(items, limit, now)
  }

  function Run<V>(cap: nat, ops: seq<Op<V>>): seq<Item<V>>
    decreases |ops|
  {
    if ops == [] then [] else Exec(cap, Run(cap, ops[..|ops| - 1]), ops[|ops| - 1])
  }

  /** The last read or write of the key, as its place in the run. */
  function LastUse<V>(ops: seq<Op<V>>, key: string): int
    decreases |ops|
  {
    if ops == [] then -1
    else
      var n := |ops| - 1;
      if (ops[n].Get? || ops[n].Set?) && ops[n].key == key then n else LastUse(ops[..n], key)
  }

  lemma {:induction false} LastUseIsPast<V>(ops: seq<Op<V>>, key: string)
    ensures -1 <= LastUse(ops, key) < |ops|
    decreases |ops|
  {
    if ops != [] {
      LastUseIsPast(ops[..|ops| - 1], key);
    }
  }

  /** Oldest use first. */
  ghost predicate ByUse<V>(items: seq<Item<V>>, ops: seq<Op<V>>)
    decreases |items|
  {
    items == [] ||
    ((forall x | x in items[1..] :: LastUse(ops, items[0].key) < LastUse(ops, x.key)) && ByUse(items[1..], ops))
  }

  lemma {:induction false} FilterByUse<V>(items: seq<Item<V>>, ops: seq<Op<V>>, keep: Item<V> -> bool)
    requires ByUse(items, ops)
    ensures ByUse(Filter(items, keep), ops)
    decreases |items|
  {
    if items != [] {
      var it, rest := items[0], items[1..];
      FilterByUse(rest, ops, keep);
      if keep(it) {
        assert ([it] + Filter(rest, keep))[1..] == Filter(rest, keep);
        assert Filter(items, keep) == [it] + Filter(rest, keep);
      } else {
        assert Filter(items, keep) == Filter(rest, keep);
      }
    }
  }

  lemma {:induction false} DropByUse<V>(items: seq<Item<V>>, ops: seq<Op<V>>, limit: int, now: Time)
    requires ByUse(items, ops)
    ensures ByUse(DropExpired(items, limit, now), ops) && forall x | x in DropExpired(items, limit, now) :: x in items
    decreases |items|
  {
    if items != [] && limit > 0 {
      if IsExpired(items[0].entry, now) {
        DropByUse(items[1..], ops, limit - 1, now);
      } else {
        DropByUse(items[1..], ops, limit, now);
        var kept := DropExpired(items[1..], limit, now);
        assert ([items[0]] + kept)[1..] == kept;
      }
    }
  }

  /** A use of a key that is not there changes the order of nothing. */
  lemma {:induction false} UseElsewhere<V>(items: seq<Item<V>>, ops: seq<Op<V>>, op: Op<V>)
    requires ByUse(items, ops) && ((op.Get? || op.Set?) ==> forall x | x in items :: x.key != op.key)
    ensures ByUse(items, ops + [op])
    decreases |items|
  {
    assert (ops + [op])[..|ops|] == ops;
    if items != [] {
      UseElsewhere(items[1..], ops, op);
    }
  }

  /** The key just used goes last. */
  lemma {:induction false} UsedLast<V>(items: seq<Item<V>>, ops: seq<Op<V>>, op: Op<V>, it: Item<V>)
    requires ByUse(items, ops) && (op.Get? || op.Set?) && it.key == op.key && forall x | x in items :: x.key != op.key
    ensures ByUse(items + [it], ops + [op])
    decreases |items|
  {
    assert (ops + [op])[..|ops|] == ops;
    if items == [] {
      assert items + [it] == [it];
    } else {
      UsedLast(items[1..], ops, op, it);
      assert (items + [it])[1..] == items[1..] + [it];
      forall x | x in items[1..] + [it] ensures LastUse(ops + [op], items[0].key) < LastUse(ops + [op], x.key) {
        LastUseIsPast(ops, items[0].key);
      }
    }
  }

  lemma StepByUse<V>(cap: nat, items: seq<Item<V>>, ops: seq<Op<V>>, op: Op<V>)
    requires ByUse(items, ops)
    ensures ByUse(Exec(cap, items, op), ops + [op])
  {
    match op
    case Get(key, now) =>
      var found := Lookup(items, key);
      FilterByUse(items, ops, (it: Item<V>) => it.key != key);
      if found.Some? && !IsExpired(found.value, now) {
        UsedLast(Remove(items, key), ops, op, Item(key, found.value));
      } else if found.Some? {
        UseElsewhere(Remove(items, key), ops, op);
      } else {
        UseElsewhere(items, ops, op);
      }
    case Set(key, payload, ttl, now) =>
      FilterByUse(items, ops, (it: Item<V>) => it.key != key);
      UsedLast(Remove(items, key), ops, op, Item(key, Entry(payload, Expiry(ttl, now))));
    case Invalidate(key) =>
      FilterByUse(items, ops, (it: Item<V>) => it.key != key);
      UseElsewhere(Remove(items, key), ops, op);
    case InvalidateAll(prefix) =>
      FilterByUse(items, ops, (it: Item<V>) => !HasPrefix(it.key, prefix));
      UseElsewhere(RemovePrefix(items, prefix), ops, op);
    case Cleanup(limit, now) =>
      DropByUse(items, ops, limit, now);
      UseElsewhere(DropExpired(items, limit, now), ops, op);
  }

  lemma {:induction false} RunByUse<V>(cap: nat, ops: seq<Op<V>>)
    ensures ByUse(Run(cap, ops), ops)
    decreases |ops|
  {
    if ops != [] {
      var before, op := ops[..|ops| - 1], ops[|ops| - 1];
      RunByUse(cap, before);
      StepByUse(cap, Run(cap, before), before, op);
      assert before + [op] == ops;
    }
  }

  /**
   After every run, a write of a new key to a full cache pushes out one entry, and that is the one whose last
   read or write is the furthest back; nothing else goes.
   */
  lemma EvictsLeastRecent<V>(cap: nat, ops: seq<Op<V>>, key: string, payload: Option<V>, ttl: Time, now: Time) returns (gone: Item<V>)
    requires cap > 0 && |Run(cap, ops)| == cap && forall x | x in Run(cap, ops) :: x.key != key
    ensures var items, items' := Run(cap, ops), Run(cap, ops + [Op.Set(key, payload, ttl, now)]);
            && gone in items && (forall x | x in items && x.key != gone.key :: LastUse(ops, gone.key) < LastUse(ops, x.key) && x in items')
            && (forall x | x in items' :: (x in items && x.key != gone.key) || x == Item(key, Entry(payload, Expiry(ttl, now))))
  {
    var items, op := Run(cap, ops), Op.Set(key, payload, ttl, now);
    RunByUse(cap, ops);
    RunIsDistinct(cap, ops);
    assert (ops + [op])[..|ops|] == ops;
    gone := items[0];
    FilterAll(items, (it: Item<V>) => it.key != key);
    var all := items + [Item(key, Entry(payload, Expiry(ttl, now)))];
    assert Run(cap, ops + [op]) == all[1..];
    assert all[1..] == items[1..] + [Item(key, Entry(payload, Expiry(ttl, now)))];
    assert items == [items[0]] + items[1..];
  }

  predicate Changes<V>(op: Op<V>, key: string) {
    ((op.Set? || op.Invalidate?) && op.key == key) || (op.InvalidateAll? && HasPrefix(key, op.prefix))
  }

  /** The last write or invalidation of the key, as its place in the run. */
  function LastChange<V>(ops: seq<Op<V>>, key: string): int
    decreases |ops|
  {
    if ops == [] then -1
    else if Changes(ops[|ops| - 1], key) then |ops| - 1 else LastChange(ops[..|ops| - 1], key)
  }

  lemma StepEntries<V>(cap: nat, items: seq<Item<V>>, op: Op<V>, it: Item<V>)
    requires it in Exec(cap, items, op)
    ensures if Changes(op, it.key) then op.Set? && it.entry == Entry(op.payload, Expiry(op.ttl, op.now)) else it in items
  {
    match op
    case Get(key, _) =>
      var found := Lookup(items, key);
    case Set(key, payload, ttl, now) =>
      assert it in Remove(items, key) || it == Item(key, Entry(payload, Expiry(ttl, now)));
    case Cleanup(limit, now) => DropShrinks(items, limit, now);
    case _ =>
  }

  lemma {:induction false} DropShrinks<V>(items: seq<Item<V>>, limit: int, now: Time)
    ensures forall x | x in DropExpired(items, limit, now) :: x in items
    decreases |items|
  {
    if items != [] && limit > 0 {
      DropShrinks(items[1..], if IsExpired(items[0].entry, now) then limit - 1 else limit, now);
    }
  }

  /** What a look-up answers after a run is the payload of the key's last write, not invalidated since and not past its time to live. */
  lemma {:induction false} AnswersAreLastWrites<V>(cap: nat, ops: seq<Op<V>>, key: string, now: Time)
    ensures var e, i := Read(Run(cap, ops), key, now).1, LastChange(ops, key);
            e.Some? ==>
              && 0 <= i < |ops| && ops[i].Set? && ops[i].key == key && e.value.payload == ops[i].payload
              && (ops[i].ttl > 0 ==> now <= ops[i].now + ops[i].ttl)
  {
    var items := Run(cap, ops);
    var e := Lookup(items, key);
    if e.Some? {
      EntriesAreLastWrites(cap, ops, Item(key, e.value));
    }
  }

  lemma {:induction false} EntriesAreLastWrites<V>(cap: nat, ops: seq<Op<V>>, it: Item<V>)
    requires it in Run(cap, ops)
    ensures var i := LastChange(ops, it.key);
            0 <= i < |ops| && ops[i].Set? && ops[i].key == it.key && it.entry == Entry(ops[i].payload, Expiry(ops[i].ttl, ops[i].now))
    decreases |ops|
  {
    var before, op := ops[..|ops| - 1], ops[|ops| - 1];
    StepEntries(cap, Run(cap, before), op, it);
    if !Changes(op, it.key) {
      EntriesAreLastWrites(cap, before, it);
    }
  }

  /** A clean-up that its limit stops has dropped the oldest of the expired: behind a kept one it drops nothing. */
  lemma {:induction false} OldestExpiredFirst<V>(items: seq<Item<V>>, limit: int, now: Time, i: nat, j: nat)
    requires Distinct(items) && i < j < |items| && IsExpired(items[i].entry, now) && items[i] in DropExpired(items, limit, now)
    ensures items[j] in DropExpired(items, limit, now)
    decreases |items|
  {
    if limit > 0 {
      var rest := items[1..];
      if IsExpired(items[0].entry, now) {
        DropExpiredOk(rest, limit - 1, now);
        assert i > 0;
        OldestExpiredFirst(rest, limit - 1, now, i - 1, j - 1);
      } else {
        assert i > 0 && items[i] in DropExpired(rest, limit, now) by {
          assert items[i] != items[0];
        }
        OldestExpiredFirst(rest, limit, now, i - 1, j - 1);
      }
    }
  }

  lemma {:induction false} RunIsDistinct<V>(cap: nat, ops: seq<Op<V>>)
    requires cap > 0
    ensures Ok(Run(cap, ops), cap)
    decreases |ops|
  {
    if ops != [] {
      var items, op := Run(cap, ops[..|ops| - 1]), ops[|ops| - 1];
      RunIsDistinct(cap, ops[..|ops| - 1]);
      match op
      case Get(key, now) => ReadOk(items, cap, key, now);
      case Set(key, payload, ttl, now) => WriteOk(items, cap, key, payload, ttl, now);
      case Invalidate(key) => RemoveOk(items, cap, key);
      case InvalidateAll(prefix) => RemovePrefixOk(items, cap, prefix);
      case Cleanup(limit, now) => DropExpiredOk(items, limit, now);
    }
  }
}
