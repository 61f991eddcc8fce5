/**
 The token bucket. Instants are seconds on one non-decreasing clock and float64 is modelled as `real`.
 A bucket's answers are characterised by a definition that mentions neither tokens nor refills: a call
 is admitted exactly when every window ending with it stays within burst + rps * length.
 */
module TokenBucket {

  type Seconds = real

  datatype Limits = Limits(rps: int, burst: int)

  /** What tenant creation, limit updates and the fixed limits of the public limiter all guarantee. */
  predicate Sane(l: Limits) {
    l.rps >= 0 && l.burst >= 0
  }

  datatype Level = Level(tokens: real, lastFill: Seconds, lastSeen: Seconds)

  function Fresh(l: Limits, now: Seconds): Level {
    Level(l.burst as real, now, now)
  }

  function Magnitude(n: int): nat {
    if n < 0 then -n else n
  }

  /** What a time earns at so many per second: their product, by repeated addition. */
  function Earned(time: Seconds, rps: int): (r: real)
    decreases Magnitude(rps)
  {
    if rps == 0 then 0.0 else if rps > 0 then Earned(time, rps - 1) + time else Earned(time, rps + 1) - time
  }

  lemma {:induction false} EarnedIsProduct(time: Seconds, rps: int)
    ensures Earned(time, rps) == time * rps as real
    decreases Magnitude(rps)
  {
    if rps > 0 {
      EarnedIsProduct(time, rps - 1);
      assert time * ((rps - 1) as real + 1.0) == time * (rps - 1) as real + time;
    } else if rps < 0 {
      EarnedIsProduct(time, rps + 1);
      assert time * (rps as real + 1.0) == time * rps as real + time;
    }
  }

  lemma {:induction false} EarnedSum(a: Seconds, b: Seconds, rps: nat)
    ensures Earned(a + b, rps) == Earned(a, rps) + Earned(b, rps)
  {
    if rps > 0 {
      EarnedSum(a, b, rps - 1);
    }
  }

  lemma {:induction false} EarnedGrows(a: Seconds, b: Seconds, rps: nat)
    requires a <= b
    ensures Earned(a, rps) <= Earned(b, rps)
  {
    if rps > 0 {
      EarnedGrows(a, b, rps - 1);
    }
  }

  lemma {:induction false} EarnedInNoTime(rps: int)
    ensures Earned(0.0, rps) == 0.0
    decreases Magnitude(rps)
  {
    if rps > 0 {
      EarnedInNoTime(rps - 1);
    } else if rps < 0 {
      EarnedInNoTime(rps + 1);
    }
  }

  method Earn(time: Seconds, rps: int) returns (r: real)
    ensures r == Earned(time, rps)
  {
    EarnedIsProduct(time, rps);
    r := time * rps as real;
  }

  /** Tokens available to a call at `now`, before it takes one. */
  function Available(l: Limits, b: Level, now: Seconds): real {
    Capped(b.tokens + Earned(now - b.lastFill, l.rps), l.burst as real)
  }

  function Capped(filled: real, burst: real): real {
    if filled > burst then burst else filled
  }

  function Take(l: Limits, b: Level, now: Seconds): (r: (Level, bool)) {
    var available := Available(l, b, now);
    if available < 1.0 then (Level(available, now, now), false) else (Level(available - 1.0, now, now), true)
  }

  class Bucket {
    const limits: Limits
    var tokens: real
    var lastFill: Seconds
    var lastSeen: Seconds

    ghost function State(): Level
      reads this
    {
      Level(tokens, lastFill, lastSeen)
    }

    ghost predicate Valid()
      reads this
    {
      Sane(limits) && 0.0 <= tokens <= limits.burst as real && lastSeen == lastFill
    }

    constructor (rps: int, burst: int, now: Seconds)
      ensures limits == Limits(rps, burst) && State() == Fresh(limits, now)
      ensures rps >= 0 && burst >= 0 ==> Valid()
    {
      limits := Limits(rps, burst);
      tokens, lastFill, lastSeen := burst as real, now, now;
    }

    method Allow(now: Seconds) returns (ok: bool)
      requires Valid() && lastFill <= now
      modifies this
      ensures Valid() && (State(), ok) == Take(limits, old(State()), now)
      ensures ok <==> Available(limits, old(State()), now) >= 1.0
    {
      AvailableInRange(limits, State(), now);
      var elapsed := now - lastFill;
      lastFill := now;
      lastSeen := now;
      var earned := Earn(elapsed, limits.rps);
      tokens := tokens + earned;
      if tokens > limits.burst as real {
        tokens := limits.burst as real;
      }
      if tokens < 1.0 {
        return false;
      }
      tokens := tokens - 1.0;
      return true;
    }
  }

  lemma AvailableInRange(l: Limits, b: Level, now: Seconds)
    requires Sane(l) && 0.0 <= b.tokens <= l.burst as real && b.lastFill <= now
    ensures 0.0 <= Available(l, b, now) <= l.burst as real
    ensures b.tokens <= Available(l, b, now)
  {
    EarnedInNoTime(l.rps);
    EarnedGrows(0.0, now - b.lastFill, l.rps);
  }

  /* ---------- runs ---------- */

  predicate NonDecreasing(times: seq<Seconds>) {
    forall i, j | 0 <= i <= j < |times| :: times[i] <= times[j]
  }

  function After(l: Limits, b: Level, times: seq<Seconds>): Level {
    if times == [] then b else Take(l, After(l, b, times[..|times| - 1]), times[|times| - 1]).0
  }

  function Answers(l: Limits, b: Level, times: seq<Seconds>): (r: seq<bool>)
    ensures |r| == |times|
  {
    if times == [] then [] else
      var n := |times| - 1;
      Answers(l, b, times[..n]) + [Take(l, After(l, b, times[..n]), times[n]).1]
  }

  function Granted(answers: seq<bool>): nat {
    if answers == [] then 0 else
      Granted(answers[..|answers| - 1]) + if answers[|answers| - 1] then 1 else 0
  }

  lemma {:induction false} TokensStayInRange(l: Limits, t0: Seconds, times: seq<Seconds>)
    requires Sane(l) && NonDecreasing([t0] + times)
    ensures var b := After(l, Fresh(l, t0), times);
            0.0 <= b.tokens <= l.burst as real && b.lastFill == ([t0] + times)[|times|]
  {
    if times != [] {
      var n := |times| - 1;
      assert [t0] + times[..n] == ([t0] + times)[..n + 1];
      TokensStayInRange(l, t0, times[..n]);
      assert ([t0] + times)[n] <= ([t0] + times)[n + 1];
      AvailableInRange(l, After(l, Fresh(l, t0), times[..n]), times[n]);
    }
  }

  /* ---------- the reference: a limiter defined by its windows alone ---------- */

  /** Budget of the window that starts with call `i` and ends at `now`, less what it already granted. */
  function Slack(l: Limits, times: seq<Seconds>, answers: seq<bool>, i: nat, now: Seconds): real
    requires i < |times| && i <= |answers|
  {
    l.burst as real + Earned(now - times[i], l.rps) - Granted(answers[i..]) as real
  }

  /** The slack of every window that ends at `now`. */
  function Slacks(l: Limits, times: seq<Seconds>, answers: seq<bool>, now: Seconds): (r: seq<real>)
    requires |times| <= |answers| + 1
  {
    seq(|times|, i requires 0 <= i < |times| => Slack(l, times, answers, i, now))
  }

  /** The last call fits into every window that ends with it. */
  predicate Fits(l: Limits, times: seq<Seconds>, answers: seq<bool>)
    requires |times| == |answers| + 1
  {
    var slacks := Slacks(l, times, answers, times[|times| - 1]);
    forall i | 0 <= i < |slacks| :: slacks[i] >= 1.0
  }

  /** Admit whenever every window allows it. */
  function Greedy(l: Limits, times: seq<Seconds>): (r: seq<bool>)
    ensures |r| == |times|
  {
    if times == [] then [] else
      var before := Greedy(l, times[..|times| - 1]);
      before + [Fits(l, times, before)]
  }

  ghost predicate IsLeast(m: real, s: seq<real>) {
    m in s && forall i | 0 <= i < |s| :: m <= s[i]
  }

  function Shifted(s: seq<real>, c: real): seq<real> {
    seq(|s|, i requires 0 <= i < |s| => s[i] + c)
  }

  lemma LeastShifted(m: real, s: seq<real>, c: real)
    requires IsLeast(m, s)
    ensures IsLeast(m + c, Shifted(s, c))
  {
    var i :| 0 <= i < |s| && s[i] == m;
    assert Shifted(s, c)[i] == m + c;
  }

  lemma LeastRefilled(m: real, s: seq<real>, c: real, cap: real)
    requires IsLeast(m, s)
    ensures IsLeast(if m + c > cap then cap else m + c, Shifted(s, c) + [cap])
  {
    LeastShifted(m, s, c);
    var all := Shifted(s, c) + [cap];
    var i :| 0 <= i < |s| && Shifted(s, c)[i] == m + c;
    assert all[i] == m + c && all[|s|] == cap;
  }

  lemma SlackMoves(l: Limits, times: seq<Seconds>, times': seq<Seconds>, answers: seq<bool>, i: nat, t: Seconds, now: Seconds)
    requires Sane(l) && i < |times| && i < |times'| && i <= |answers| && times[i] == times'[i]
    ensures Slack(l, times', answers, i, now) == Slack(l, times, answers, i, t) + Earned(now - t, l.rps)
  {
    EarnedSum(t - times[i], now - t, l.rps);
    assert t - times[i] + (now - t) == now - times[i];
  }

  /** As time passes every window earns alike, and the window of the new call alone joins with slack `burst`. */
  lemma SlacksMove(l: Limits, times: seq<Seconds>, answers: seq<bool>, now: Seconds, c: real)
    requires Sane(l) && times != [] && |answers| == |times| && c == Earned(now - times[|times| - 1], l.rps)
    ensures Slacks(l, times + [now], answers, now)
         == Shifted(Slacks(l, times, answers, times[|times| - 1]), c) + [l.burst as real]
  {
    var n := |times|;
    var s1, s2 := Slacks(l, times, answers, times[n - 1]), Slacks(l, times + [now], answers, now);
    forall i | 0 <= i < n ensures s2[i] == s1[i] + c {
      SlackMoves(l, times, times + [now], answers, i, times[n - 1], now);
    }
    EarnedInNoTime(l.rps);
    assert answers[n..] == [] && s2[n] == l.burst as real;
  }

  lemma GrantedSnoc(answers: seq<bool>, ok: bool, i: nat)
    requires i <= |answers|
    ensures Granted((answers + [ok])[i..]) == Granted(answers[i..]) + if ok then 1 else 0
  {
    var s := (answers + [ok])[i..];
    assert s[..|s| - 1] == answers[i..];
  }

  /** An admitted call costs every window one. */
  lemma SlacksTake(l: Limits, times: seq<Seconds>, answers: seq<bool>, ok: bool, now: Seconds)
    requires |times| == |answers| + 1
    ensures Slacks(l, times, answers + [ok], now) == Shifted(Slacks(l, times, answers, now), if ok then -1.0 else 0.0)
  {
    forall i | 0 <= i < |times|
      ensures Slacks(l, times, answers + [ok], now)[i]
           == Slacks(l, times, answers, now)[i] + if ok then -1.0 else 0.0
    {
      GrantedSnoc(answers, ok, i);
    }
  }

  lemma RefillKeepsLeast(l: Limits, b: Level, times: seq<Seconds>, answers: seq<bool>, now: Seconds)
    requires Sane(l) && times != [] && |answers| == |times| && b.lastFill == times[|times| - 1]
    requires IsLeast(b.tokens, Slacks(l, times, answers, b.lastFill))
    ensures IsLeast(Available(l, b, now), Slacks(l, times + [now], answers, now))
  {
    var c := Earned(now - b.lastFill, l.rps);
    SlacksMove(l, times, answers, now, c);
    LeastRefilled(b.tokens, Slacks(l, times, answers, b.lastFill), c, l.burst as real);
    var s2 := Slacks(l, times + [now], answers, now);
    var a := Available(l, b, now);
    assert s2 == Shifted(Slacks(l, times, answers, b.lastFill), c) + [l.burst as real];
    assert a == if b.tokens + c > l.burst as real then l.burst as real else b.tokens + c;
    assert a in s2;
    assert IsLeast(a, s2);
  }

  /** After a call the tokens left are the least slack over all windows that end with it. */
  lemma {:induction false} TokensAreLeastSlack(l: Limits, t0: Seconds, times: seq<Seconds>)
    requires Sane(l) && NonDecreasing([t0] + times) && times != []
    ensures IsLeast(After(l, Fresh(l, t0), times).tokens,
                    Slacks(l, times, Answers(l, Fresh(l, t0), times), times[|times| - 1]))
    decreases |times|, 1
  {
    var n := |times| - 1;
    var b0 := Fresh(l, t0);
    var before := Answers(l, b0, times[..n]);
    var ok := Answers(l, b0, times)[n];
    AvailableIsLeastSlack(l, t0, times);
    SlacksTake(l, times, before, ok, times[n]);
    LeastShifted(Available(l, After(l, b0, times[..n]), times[n]), Slacks(l, times, before, times[n]),
                 if ok then -1.0 else 0.0);
  }

  /** The tokens a call finds are the least slack over all windows that end with it. */
  lemma {:induction false} AvailableIsLeastSlack(l: Limits, t0: Seconds, times: seq<Seconds>)
    requires Sane(l) && NonDecreasing([t0] + times) && times != []
    ensures var n := |times| - 1;
            IsLeast(Available(l, After(l, Fresh(l, t0), times[..n]), times[n]),
                    Slacks(l, times, Answers(l, Fresh(l, t0), times[..n]), times[n]))
    decreases |times|, 0
  {
    var n := |times| - 1;
    var b0, init, now := Fresh(l, t0), times[..n], times[n];
    if n == 0 {
      assert ([t0] + times)[0] <= ([t0] + times)[1];
      AvailableInRange(l, b0, now);
      EarnedInNoTime(l.rps);
      assert Slacks(l, times, [], now) == [l.burst as real];
    } else {
      assert [t0] + init == ([t0] + times)[..n + 1];
      TokensAreLeastSlack(l, t0, init);
      TokensStayInRange(l, t0, init);
      RefillKeepsLeast(l, After(l, b0, init), init, Answers(l, b0, init), now);
      assert init + [now] == times;
    }
  }

  /** A fresh bucket answers every sequence of calls exactly as the window-defined limiter does. */
  lemma {:induction false} BucketIsGreedy(l: Limits, t0: Seconds, times: seq<Seconds>)
    requires Sane(l) && NonDecreasing([t0] + times)
    ensures Answers(l, Fresh(l, t0), times) == Greedy(l, times)
  {
    if times != [] {
      var n := |times| - 1;
      assert [t0] + times[..n] == ([t0] + times)[..n + 1];
      BucketIsGreedy(l, t0, times[..n]);
      AvailableIsLeastSlack(l, t0, times);
    }
  }

  /* ---------- the rate bound ---------- */

  /** Calls admitted at an instant of [from, to]. */
  function GrantedIn(times: seq<Seconds>, answers: seq<bool>, from: Seconds, to: Seconds): nat
    requires |times| == |answers|
  {
    if times == [] then 0 else
      var n := |times| - 1;
      GrantedIn(times[..n], answers[..n], from, to) + if answers[n] && from <= times[n] <= to then 1 else 0
  }

  lemma {:induction false} GrantedInPrefix(times: seq<Seconds>, answers: seq<bool>, from: Seconds, to: Seconds)
    requires |times| == |answers| && NonDecreasing(times)
    requires forall i | 0 <= i < |times| :: times[i] < from
    ensures GrantedIn(times, answers, from, to) == 0
  {
    if times != [] {
      var n := |times| - 1;
      GrantedInPrefix(times[..n], answers[..n], from, to);
    }
  }

  /** What a window admits is admitted from some call of that window on. */
  lemma {:induction false} WindowIsSuffix(times: seq<Seconds>, answers: seq<bool>, from: Seconds, to: Seconds) returns (i: nat)
    requires |times| == |answers| && NonDecreasing(times)
    ensures i <= |times| && (i < |times| ==> from <= times[i])
    ensures forall j | 0 <= j < i :: times[j] < from
    ensures GrantedIn(times, answers, from, to) <= Granted(answers[i..])
  {
    if times == [] {
      i := 0;
    } else {
      var n := |times| - 1;
      i := WindowIsSuffix(times[..n], answers[..n], from, to);
      assert answers == answers[..n] + [answers[n]];
      if i == n && times[n] < from {
        i := n + 1;
        GrantedInPrefix(times, answers, from, to);
      } else {
        GrantedSnoc(answers[..n], answers[n], i);
      }
    }
  }

  /** No window admits more than its budget: `answers` granted from call `i` to the last one. */
  predicate WithinBudget(l: Limits, times: seq<Seconds>, answers: seq<bool>, i: nat)
    requires i < |times| && |times| == |answers|
  {
    Granted(answers[i..]) as real <= l.burst as real + Earned(times[|times| - 1] - times[i], l.rps)
  }

  lemma LastWindowBound(l: Limits, times: seq<Seconds>, answers: seq<bool>, from: Seconds, length: Seconds)
    requires Sane(l) && NonDecreasing(times) && |times| == |answers| && length >= 0.0
    requires forall i: nat | i < |times| :: WithinBudget(l, times, answers, i)
    requires times != [] ==> times[|times| - 1] <= from + length
    ensures GrantedIn(times, answers, from, from + length) as real <= l.burst as real + Earned(length, l.rps)
  {
    var i := WindowIsSuffix(times, answers, from, from + length);
    if i < |times| {
      assert WithinBudget(l, times, answers, i);
      EarnedGrows(times[|times| - 1] - times[i], length, l.rps);
    } else {
      assert answers[i..] == [];
      EarnedInNoTime(l.rps);
      EarnedGrows(0.0, length, l.rps);
    }
  }

  lemma {:induction false} WindowEarns(l: Limits, t0: Seconds, times: seq<Seconds>, from: Seconds, length: Seconds)
    requires Sane(l) && NonDecreasing([t0] + times) && length >= 0.0
    ensures GrantedIn(times, Answers(l, Fresh(l, t0), times), from, from + length) as real <= l.burst as real + Earned(length, l.rps)
    decreases |times|
  {
    var all := Answers(l, Fresh(l, t0), times);
    EarnedInNoTime(l.rps);
    EarnedGrows(0.0, length, l.rps);
    if times != [] {
      var n := |times| - 1;
      assert times == ([t0] + times)[1..];
      assert [t0] + times[..n] == ([t0] + times)[..n + 1];
      if times[n] > from + length {
        assert all[..n] == Answers(l, Fresh(l, t0), times[..n]);
        WindowEarns(l, t0, times[..n], from, length);
      } else {
        TokensAreLeastSlack(l, t0, times);
        TokensStayInRange(l, t0, times);
        forall i: nat | i < |times| ensures WithinBudget(l, times, all, i) {
          assert Slacks(l, times, all, times[n])[i] == Slack(l, times, all, i, times[n]);
        }
        LastWindowBound(l, times, all, from, length);
      }
    }
  }

  /**
   The rate bound: in every run and every window of length `length`, at most
   burst + rps * length calls are admitted.
   */
  lemma WindowBound(l: Limits, t0: Seconds, times: seq<Seconds>, from: Seconds, length: Seconds)
    requires Sane(l) && NonDecreasing([t0] + times) && length >= 0.0
    ensures GrantedIn(times, Answers(l, Fresh(l, t0), times), from, from + length) as real
         <= l.burst as real + length * l.rps as real
  {
    WindowEarns(l, t0, times, from, length);
    EarnedIsProduct(length, l.rps);
  }
}
