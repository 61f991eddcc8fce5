/** Small shared vocabulary: optional values and facts about finite sets. */
module Common {

  datatype Option<+T> = None | Some(value: T)

  /** A subset of a finite set has no more elements. */
  lemma {:induction false} SubsetCard<T>(a: set<T>, b: set<T>)
    requires a <= b
    ensures |a| <= |b|
    decreases b
  {
    if x :| x in a {
      SubsetCard(a - {x}, b - {x});
    }
  }

  function Sum(xs: seq<nat>): nat {
    if xs == [] then 0 else Sum(xs[..|xs| - 1]) + xs[|xs| - 1]
  }

  lemma {:induction false} SumConcat(a: seq<nat>, b: seq<nat>)
    ensures Sum(a + b) == Sum(a) + Sum(b)
    decreases |b|
  {
    if b == [] {
      assert a + b == a;
    } else {
      var n := |b| - 1;
      assert (a + b)[..|a + b| - 1] == a + b[..n];
      SumConcat(a, b[..n]);
    }
  }

  lemma SumThree(a: seq<nat>, x: nat, b: seq<nat>)
    ensures Sum(a + [x] + b) == Sum(a) + x + Sum(b)
  {
    SumConcat(a + [x], b);
    SumConcat(a, [x]);
    assert [x][..0] == [];
  }

  /** Changing one summand changes the sum by as much. */
  lemma SumUpdate(xs: seq<nat>, i: nat, x: nat)
    requires i < |xs|
    ensures Sum(xs[i := x]) + xs[i] == Sum(xs) + x
  {
    SumThree(xs[..i], xs[i], xs[i + 1..]);
    SumThree(xs[..i], x, xs[i + 1..]);
    assert xs == xs[..i] + [xs[i]] + xs[i + 1..];
    assert xs[i := x] == xs[..i] + [x] + xs[i + 1..];
  }

  lemma Assoc<T>(a: seq<T>, b: seq<T>, c: seq<T>)
    ensures (a + b) + c == a + (b + c)
  {
  }

  lemma TwoIsSnoc<T>(a: T, b: T)
    ensures [] + [a] == [a] && [a] + [b] == [a, b]
  {
  }

  lemma ThreeIsSnoc<T>(a: T, b: T, c: T)
    ensures [a, b] + [c] == [a, b, c]
  {
  }

  lemma EmptyConcat<T>(s: seq<T>)
    ensures [] + s == s && s + [] == s
  {
  }
}
