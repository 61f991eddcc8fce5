/** Each payload is sent to each webhook at most five times, with rising attempt numbers. */
module WebhookPairs {
  import opened Common
  import opened Domain
  import opened Webhook
  import Causes = WebhookCauses

  function InQueue(queue: seq<Job>, x: Pair): nat {
    if queue == [] then 0 else InQueue(queue[1..], x) + if queue[0].pair == x then 1 else 0
  }

  function InTimers(timers: seq<Timer>, x: Pair): nat {
    if timers == [] then 0 else InTimers(timers[1..], x) + if timers[0].job.pair == x then 1 else 0
  }

  /** The attempt numbers with which a pair was sent, in order. */
  function Attempts(sent: seq<Job>, x: Pair): (r: seq<nat>)
    decreases |sent|
  {
    if sent == [] then []
    else
      var last := sent[|sent| - 1];
      Attempts(sent[..|sent| - 1], x) + if last.pair == x then [last.attempt] else []
  }

  predicate Rising(s: seq<nat>) {
    forall i, j | 0 <= i < j < |s| :: s[i] < s[j]
  }

  predicate AllBelow(s: seq<nat>, bound: nat) {
    forall a | a in s :: 1 <= a < bound
  }

  /** A pair is waiting in at most one place, and that place is ahead of every attempt made for it. */
  ghost predicate Track(queue: seq<Job>, timers: seq<Timer>, made: seq<nat>, x: Pair) {
    && InQueue(queue, x) + InTimers(timers, x) <= 1
    && Rising(made) && AllBelow(made, MAX_ATTEMPTS + 1)
    && (forall j | j in queue && j.pair == x :: AllBelow(made, j.attempt))
    && (forall t | t in timers && t.job.pair == x :: AllBelow(made, t.job.attempt + 1))
  }

  ghost predicate OnTrack(s: State, x: Pair) {
    Track(s.queue, s.timers, Attempts(s.sent, x), x)
  }

  lemma {:induction false} QueueMember(queue: seq<Job>, j: Job)
    requires j in queue
    ensures InQueue(queue, j.pair) >= 1
    decreases |queue|
  {
    if queue[0] != j {
      QueueMember(queue[1..], j);
    }
  }

  lemma {:induction false} TimerMember(timers: seq<Timer>, t: Timer)
    requires t in timers
    ensures InTimers(timers, t.job.pair) >= 1
    decreases |timers|
  {
    if timers[0] != t {
      TimerMember(timers[1..], t);
    }
  }

  lemma {:induction false} QueueAppend(a: seq<Job>, b: seq<Job>, x: Pair)
    ensures InQueue(a + b, x) == InQueue(a, x) + InQueue(b, x)
    decreases |a|
  {
    if a == [] {
      assert a + b == b;
    } else {
      assert (a + b)[1..] == a[1..] + b;
      QueueAppend(a[1..], b, x);
    }
  }

  lemma {:induction false} TimersAppend(a: seq<Timer>, b: seq<Timer>, x: Pair)
    ensures InTimers(a + b, x) == InTimers(a, x) + InTimers(b, x)
    decreases |a|
  {
    if a == [] {
      assert a + b == b;
    } else {
      assert (a + b)[1..] == a[1..] + b;
      TimersAppend(a[1..], b, x);
    }
  }

  lemma OfferCount(queue: seq<Job>, job: Job, x: Pair)
    ensures InQueue(Offer(queue, job), x) <= InQueue(queue, x) + if job.pair == x then 1 else 0
    ensures forall j | j in Offer(queue, job) :: j in queue || j == job
  {
    QueueAppend(queue, [job], x);
  }

  lemma AttemptsSnoc(sent: seq<Job>, job: Job, x: Pair)
    ensures Attempts(sent + [job], x) == if job.pair == x then Attempts(sent, x) + [job.attempt] else Attempts(sent, x)
  {
    assert (sent + [job])[..|sent|] == sent;
  }

  /* ---------- dispatch ---------- */

  predicate Names(hooks: seq<Hook>, id: string) {
    exists i :: 0 <= i < |hooks| && hooks[i].id == id
  }

  lemma {:induction false} OfferAllCount(queue: seq<Job>, payload: nat, hooks: seq<Hook>, event: string, x: Pair)
    requires DistinctHooks(hooks)
    ensures var q := OfferAll(queue, payload, hooks, event);
            && InQueue(q, x) <= InQueue(queue, x) + (if x.payload == payload && Names(hooks, x.hook) then 1 else 0)
            && forall j | j in q && j.pair.payload != payload :: j in queue
    decreases |hooks|
  {
    if hooks != [] {
      var n := |hooks| - 1;
      OfferAllCount(queue, payload, hooks[..n], event, x);
      OfferCount(OfferAll(queue, payload, hooks[..n], event), Job(Pair(payload, hooks[n].id), 1), x);
      if Names(hooks[..n], x.hook) {
        var i :| 0 <= i < n && hooks[..n][i].id == x.hook;
        assert hooks[i].id == x.hook && hooks[n].id != x.hook;
      }
    }
  }

  /** Nothing is known of a payload before it is issued. */
  lemma {:induction false} NeverSent(sent: seq<Job>, x: Pair)
    requires forall i | 0 <= i < |sent| :: sent[i].pair != x
    ensures Attempts(sent, x) == []
    decreases |sent|
  {
    if sent != [] {
      NeverSent(sent[..|sent| - 1], x);
    }
  }

  lemma {:induction false} AbsentFromQueue(queue: seq<Job>, x: Pair)
    requires forall i | 0 <= i < |queue| :: queue[i].pair != x
    ensures InQueue(queue, x) == 0
    decreases |queue|
  {
    if queue != [] {
      AbsentFromQueue(queue[1..], x);
    }
  }

  lemma {:induction false} AbsentFromTimers(timers: seq<Timer>, x: Pair)
    requires forall i | 0 <= i < |timers| :: timers[i].job.pair != x
    ensures InTimers(timers, x) == 0
    decreases |timers|
  {
    if timers != [] {
      AbsentFromTimers(timers[1..], x);
    }
  }

  lemma DispatchOnTrack(s: State, step: Step, x: Pair)
    requires Shaped(s) && OnTrack(s, x) && step.Dispatch?
    ensures OnTrack(Apply(s, step), x)
  {
    var hooks := HooksOf(s, step.tenant);
    OfferAllCount(s.queue, s.issued, hooks, step.event, x);
    if x.payload == s.issued {
      NeverSent(s.sent, x);
      AbsentFromQueue(s.queue, x);
      AbsentFromTimers(s.timers, x);
    }
  }

  /* ---------- delivery and timers ---------- */

  lemma RisingSnoc(made: seq<nat>, a: nat)
    requires Rising(made) && AllBelow(made, a) && 1 <= a
    ensures Rising(made + [a]) && AllBelow(made + [a], a + 1)
  {
    forall i, j | 0 <= i < j < |made| + 1 ensures (made + [a])[i] < (made + [a])[j] {
      assert made[i] in made;
    }
  }

  lemma TakenOther(queue: seq<Job>, timers: seq<Timer>, made: seq<nat>, x: Pair)
    requires queue != [] && Track(queue, timers, made, x) && queue[0].pair != x
    ensures Track(queue[1..], timers, made, x)
    ensures Track(queue[1..], timers + Retry(queue[0]), made, x)
  {
    TimersAppend(timers, Retry(queue[0]), x);
  }

  /** The taken job was the pair's only one, and its attempt exceeds all earlier ones. */
  lemma TakenMine(queue: seq<Job>, timers: seq<Timer>, made: seq<nat>, x: Pair)
    requires queue != [] && Track(queue, timers, made, x) && queue[0].pair == x && 1 <= queue[0].attempt <= MAX_ATTEMPTS
    ensures (forall j | j in queue[1..] :: j.pair != x) && (forall t | t in timers :: t.job.pair != x)
    ensures Rising(made + [queue[0].attempt]) && AllBelow(made + [queue[0].attempt], queue[0].attempt + 1)
  {
    var rest := queue[1..];
    assert queue[0] in queue;
    RisingSnoc(made, queue[0].attempt);
    forall j | j in rest ensures j.pair != x {
      if j.pair == x { QueueMember(rest, j); }
    }
    forall t | t in timers ensures t.job.pair != x {
      if t.job.pair == x { TimerMember(timers, t); }
    }
  }

  lemma DeliverMine(queue: seq<Job>, timers: seq<Timer>, made: seq<nat>, x: Pair)
    requires queue != [] && Track(queue, timers, made, x) && queue[0].pair == x && 1 <= queue[0].attempt <= MAX_ATTEMPTS
    ensures Track(queue[1..], timers, made, x)
    ensures Track(queue[1..], timers, made + [queue[0].attempt], x)
    ensures Track(queue[1..], timers + Retry(queue[0]), made + [queue[0].attempt], x)
  {
    TakenMine(queue, timers, made, x);
    TimersAppend(timers, Retry(queue[0]), x);
    assert Retry(queue[0]) != [] ==> Retry(queue[0])[1..] == [];
    assert forall t | t in timers + Retry(queue[0]) && t.job.pair == x :: t.job == queue[0];
  }

  lemma TrackedState(s: State, queue: seq<Job>, timers: seq<Timer>, made: seq<nat>, x: Pair)
    requires s.queue == queue && s.timers == timers && Attempts(s.sent, x) == made && Track(queue, timers, made, x)
    ensures OnTrack(s, x)
  {
  }

  lemma DeliverOnTrack(s: State, step: Step, x: Pair)
    requires Shaped(s) && OnTrack(s, x) && step.Deliver? && Enabled(s, step)
    ensures OnTrack(Apply(s, step), x)
  {
    var job, made, s' := s.queue[0], Attempts(s.sent, x), Apply(s, step);
    var rest := s.queue[1..];
    AttemptsSnoc(s.sent, job, x);
    if job.pair == x {
      DeliverMine(s.queue, s.timers, made, x);
    } else {
      TakenOther(s.queue, s.timers, made, x);
    }
    var made' := if job.pair == x then made + [job.attempt] else made;
    if step.outcome == Blocked {
      TrackedState(s', rest, s.timers, made, x);
    } else if step.outcome == Accepted {
      TrackedState(s', rest, s.timers, made', x);
    } else {
      TrackedState(s', rest, s.timers + Retry(job), made', x);
    }
  }

  lemma {:induction false} TimerRemove(timers: seq<Timer>, i: nat, x: Pair)
    requires i < |timers|
    ensures InTimers(timers, x) == InTimers(timers[..i] + timers[i + 1..], x) + if timers[i].job.pair == x then 1 else 0
    decreases |timers|
  {
    var rest := timers[..i] + timers[i + 1..];
    if i == 0 {
      assert rest == timers[1..];
    } else {
      TimerRemove(timers[1..], i - 1, x);
      assert rest[1..] == timers[1..][..i - 1] + timers[1..][i..];
    }
  }

  lemma FireTrack(queue: seq<Job>, timers: seq<Timer>, made: seq<nat>, x: Pair, i: nat)
    requires i < |timers| && Track(queue, timers, made, x)
    ensures var job := timers[i].job;
            Track(Offer(queue, job.(attempt := job.attempt + 1)), timers[..i] + timers[i + 1..], made, x)
  {
    var job := timers[i].job;
    TimerRemove(timers, i, x);
    OfferCount(queue, job.(attempt := job.attempt + 1), x);
    assert timers[i] in timers;
  }

  lemma FireOnTrack(s: State, step: Step, x: Pair)
    requires OnTrack(s, x) && step.Fire? && Enabled(s, step)
    ensures OnTrack(Apply(s, step), x)
  {
    var s' := Apply(s, step);
    FireTrack(s.queue, s.timers, Attempts(s.sent, x), x, step.i);
    TrackedState(s', s'.queue, s'.timers, Attempts(s.sent, x), x);
  }

  lemma StepOnTrack(s: State, step: Step, x: Pair)
    requires Shaped(s) && OnTrack(s, x) && Enabled(s, step)
    ensures OnTrack(Apply(s, step), x)
  {
    if step.Dispatch? {
      DispatchOnTrack(s, step, x);
    } else if step.Deliver? {
      DeliverOnTrack(s, step, x);
    } else if step.Fire? {
      FireOnTrack(s, step, x);
    }
  }

  lemma {:induction false} RunOnTrack(steps: seq<Step>, x: Pair)
    ensures OnTrack(Run(Init(), steps), x)
    decreases |steps|
  {
    if steps != [] {
      var before := steps[..|steps| - 1];
      RunOnTrack(before, x);
      RunKeepsShape(before);
      if Enabled(Run(Init(), before), steps[|steps| - 1]) {
        StepOnTrack(Run(Init(), before), steps[|steps| - 1], x);
      }
    }
  }

  lemma {:induction false} RisingBound(s: seq<nat>, bound: nat)
    requires Rising(s) && AllBelow(s, bound) && bound > 0
    ensures |s| < bound
    decreases |s|
  {
    if s != [] {
      var n := |s| - 1;
      assert s[n] in s;
      forall a | a in s[..n] ensures 1 <= a < s[n] {
        var i :| 0 <= i < n && s[..n][i] == a;
        assert s[i] in s;
      }
      RisingBound(s[..n], s[n]);
    }
  }

  /** In every run each payload goes to each webhook at most five times, and attempt numbers strictly rise. */
  lemma AtMostFiveDeliveries(steps: seq<Step>, x: Pair)
    ensures var attempts := Attempts(Run(Init(), steps).sent, x);
            |attempts| <= MAX_ATTEMPTS && Rising(attempts) && AllBelow(attempts, MAX_ATTEMPTS + 1)
    ensures |Run(Init(), steps).queue| <= QUEUE_CAP
    ensures forall t | t in Run(Init(), steps).timers :: t.after != SCHEDULE[4]
  {
    RunOnTrack(steps, x);
    RunKeepsShape(steps);
    RisingBound(Attempts(Run(Init(), steps).sent, x), MAX_ATTEMPTS + 1);
  }

  /* ---------- the bound is reached ---------- */

  function SentUpTo(x: Pair, k: nat): seq<Job> {
    seq(k, i requires 0 <= i < k => Job(x, i + 1))
  }

  /** One job alone, about to make this attempt after all earlier ones failed. */
  function Alone(x: Pair, attempt: nat, hooks: map<string, seq<Hook>>, issued: nat): State
    requires attempt > 0
  {
    State([Job(x, attempt)], [], hooks, SentUpTo(x, attempt - 1), issued, false, false)
  }

  /** A failed delivery followed by its timer, so many times. */
  function Rounds(k: nat): seq<Step> {
    if k == 0 then [] else Rounds(k - 1) + [Step.Deliver(Failed)] + [Step.Fire(0)]
  }

  lemma RunSnoc(s: State, steps: seq<Step>, step: Step)
    ensures Run(s, steps + [step]) == if Enabled(Run(s, steps), step) then Apply(Run(s, steps), step) else Run(s, steps)
  {
    assert (steps + [step])[..|steps|] == steps;
  }

  lemma FailedOnce(x: Pair, a: nat, hooks: map<string, seq<Hook>>, issued: nat)
    requires 1 <= a < MAX_ATTEMPTS
    ensures var s := Apply(Alone(x, a, hooks, issued), Step.Deliver(Failed));
            Enabled(s, Step.Fire(0)) && Apply(s, Step.Fire(0)) == Alone(x, a + 1, hooks, issued)
  {
    SentOneMore(x, a);
  }

  lemma SentNothing(x: Pair)
    ensures SentUpTo(x, 0) == []
  {
  }

  lemma SentOneMore(x: Pair, a: nat)
    requires a > 0
    ensures SentUpTo(x, a - 1) + [Job(x, a)] == SentUpTo(x, a)
  {
  }

  lemma {:induction false} FailedOften(x: Pair, k: nat, hooks: map<string, seq<Hook>>, issued: nat)
    requires k < MAX_ATTEMPTS
    ensures Run(Alone(x, 1, hooks, issued), Rounds(k)) == Alone(x, k + 1, hooks, issued)
  {
    if k > 0 {
      FailedOften(x, k - 1, hooks, issued);
      FailedOnce(x, k, hooks, issued);
      OneMoreRound(Alone(x, 1, hooks, issued), k, Alone(x, k, hooks, issued), Alone(x, k + 1, hooks, issued));
    }
  }

  lemma OneMoreRound(s: State, k: nat, mid: State, next: State)
    requires k > 0 && Run(s, Rounds(k - 1)) == mid && Enabled(mid, Step.Deliver(Failed))
    requires var failed := Apply(mid, Step.Deliver(Failed)); Enabled(failed, Step.Fire(0)) && Apply(failed, Step.Fire(0)) == next
    ensures Run(s, Rounds(k)) == next
  {
    RunSnoc(s, Rounds(k - 1), Step.Deliver(Failed));
    RunSnoc(s, Rounds(k - 1) + [Step.Deliver(Failed)], Step.Fire(0));
  }

  lemma {:induction false} RunConcat(s: State, a: seq<Step>, b: seq<Step>)
    ensures Run(s, a + b) == Run(Run(s, a), b)
    decreases |b|
  {
    if b == [] {
      assert a + b == a;
    } else {
      var n := |b| - 1;
      RunConcat(s, a, b[..n]);
      assert (a + b)[..|a + b| - 1] == a + b[..n];
    }
  }

  /** A first dispatch to a tenant with one subscribed webhook leaves its first attempt in the queue. */
  lemma Dispatched(hooks: map<string, seq<Hook>>, tenant: string, hook: Hook, event: string)
    requires (forall t | t in hooks :: DistinctHooks(hooks[t])) && tenant in hooks && hooks[tenant] == [hook] && event in hook.events
    ensures Run(Init(), [Step.Load(hooks), Step.Dispatch(event, tenant)]) == Alone(Pair(0, hook.id), 1, hooks, 1)
  {
    var load, dispatch := Step.Load(hooks), Step.Dispatch(event, tenant);
    RunSnoc(Init(), [], load);
    RunSnoc(Init(), [load], dispatch);
    TwoIsSnoc(load, dispatch);
    OfferOne(hook, event);
    SentNothing(Pair(0, hook.id));
  }

  lemma OfferOne(hook: Hook, event: string)
    requires event in hook.events
    ensures OfferAll([], 0, [hook], event) == [Job(Pair(0, hook.id), 1)]
  {
    assert [hook][..0] == [];
  }

  /**
   From the start: the webhooks are loaded, an event is dispatched to the one webhook of a tenant, and every
   delivery fails. The webhook gets attempts 1 to 5 and then nothing more, and nothing is left behind.
   */
  lemma FailingHookIsTriedFiveTimes(hooks: map<string, seq<Hook>>, tenant: string, hook: Hook, event: string)
    requires (forall t | t in hooks :: DistinctHooks(hooks[t])) && tenant in hooks && hooks[tenant] == [hook] && event in hook.events
    ensures var start := [Step.Load(hooks), Step.Dispatch(event, tenant)];
            var s := Run(Init(), start + (Rounds(4) + [Step.Deliver(Failed)]));
            s.sent == SentUpTo(Pair(0, hook.id), MAX_ATTEMPTS) && s.queue == [] && s.timers == []
  {
    var x := Pair(0, hook.id);
    Dispatched(hooks, tenant, hook, event);
    RunConcat(Init(), [Step.Load(hooks), Step.Dispatch(event, tenant)], Rounds(4) + [Step.Deliver(Failed)]);
    FailedOften(x, 4, hooks, 1);
    RunSnoc(Alone(x, 1, hooks, 1), Rounds(4), Step.Deliver(Failed));
    SentOneMore(x, 5);
  }

  lemma OfferNext(queue: seq<Job>, payload: nat, hooks: seq<Hook>, event: string, i: nat)
    requires i < |hooks|
    ensures var q := OfferAll(queue, payload, hooks[..i], event);
            OfferAll(queue, payload, hooks[..i + 1], event)
              == if event in hooks[i].events && |q| < QUEUE_CAP then q + [Job(Pair(payload, hooks[i].id), 1)] else q
  {
    assert hooks[..i + 1][..i] == hooks[..i];
  }

  lemma DispatchIs(s: State, event: string, tenant: string)
    requires Shaped(s)
    ensures var s' := Apply(s, Step.Dispatch(event, tenant));
            && Shaped(s')
            && s' == (if HooksOf(s, tenant) == [] then s
                      else s.(queue := OfferAll(s.queue, s.issued, HooksOf(s, tenant), event), issued := s.issued + 1))
            && s'.queue == if tenant in s.hooks then Causes.Fitting(s.queue + Causes.FirstAttempts(s.issued, s.hooks[tenant], event))
                           else s.queue
  {
    StepKeepsShape(s, Step.Dispatch(event, tenant));
    if tenant in s.hooks {
      Causes.OfferAllFits(s.queue, s.issued, s.hooks[tenant], event);
    }
  }

  /* ---------- the dispatcher ---------- */

  class Dispatcher {
    var queue: seq<Job>
    var timers: seq<Timer>
    var hooks: map<string, seq<Hook>>
    var issued: nat
    var cancelled: bool
    var stopped: bool
    ghost var sent: seq<Job>

    ghost function Now(): State
      reads this
    {
      State(queue, timers, hooks, sent, issued, cancelled, stopped)
    }

    ghost predicate Valid()
      reads this
    {
      Shaped(Now())
    }

    constructor ()
      ensures Valid() && Now() == Init()
    {
      queue, timers, hooks, issued, cancelled, stopped, sent := [], [], map[], 0, false, false, [];
    }

    method Dispatch(event: string, tenant: string)
      requires Valid()
      modifies this
      ensures Valid() && Now() == Apply(old(Now()), Step.Dispatch(event, tenant))
      ensures queue == if tenant in hooks then Causes.Fitting(old(queue) + Causes.FirstAttempts(old(issued), hooks[tenant], event))
                       else old(queue)
      ensures timers == old(timers) && hooks == old(hooks)
    {
      ghost var s := Now();
      DispatchIs(s, event, tenant);
      if tenant !in hooks || |hooks[tenant]| == 0 {
        return;
      }
      var mine, payload := hooks[tenant], issued;
      issued := issued + 1;
      for i := 0 to |mine|
        modifies this`queue
        invariant queue == OfferAll(s.queue, payload, mine[..i], event)
      {
        OfferNext(s.queue, payload, mine, event, i);
        if event in mine[i].events {
          if |queue| < QUEUE_CAP {
            queue := queue + [Job(Pair(payload, mine[i].id), 1)];
          }
        }
      }
      assert mine[..|mine|] == mine;
    }

    /** One turn of the delivery loop; the schedule is only ever indexed within bounds. */
    method Deliver(outcome: Outcome)
      requires Valid() && queue != [] && !stopped
      modifies this
      ensures Valid() && Now() == Apply(old(Now()), Step.Deliver(outcome)) && Work(Now()) < Work(old(Now()))
      ensures queue == old(queue)[1..] && hooks == old(hooks) && issued == old(issued)
      ensures timers == if outcome == Failed && old(queue)[0].attempt < 5
                        then old(timers) + [Timer(old(queue)[0], SCHEDULE[old(queue)[0].attempt - 1])] else old(timers)
      ensures sent == if outcome == Blocked then old(sent) else old(sent) + [old(queue)[0]]
    {
      StepKeepsShape(Now(), Step.Deliver(outcome));
      StepUsesWork(Now(), Step.Deliver(outcome));
      var job := queue[0];
      queue := queue[1..];
      if outcome == Blocked {
        return;
      }
      sent := sent + [job];
      if outcome == Accepted {
        return;
      }
      if job.attempt < MAX_ATTEMPTS {
        var backoff := SCHEDULE[job.attempt - 1];
        timers := timers + [Timer(job, backoff)];
      } else {
        assert timers == timers + Retry(job);
      }
    }

    method Fire(i: nat)
      requires Valid() && i < |timers|
      modifies this
      ensures Valid() && Now() == Apply(old(Now()), Step.Fire(i))
      ensures var job := old(timers)[i].job;
              queue == Causes.Fitting(old(queue) + [job.(attempt := job.attempt + 1)])
      ensures timers == old(timers)[..i] + old(timers)[i + 1..] && hooks == old(hooks) && issued == old(issued)
    {
      StepKeepsShape(Now(), Step.Fire(i));
      var job := timers[i].job;
      timers := timers[..i] + timers[i + 1..];
      job := job.(attempt := job.attempt + 1);
      if |queue| < QUEUE_CAP {
        queue := queue + [job];
      }
    }
  }
}
