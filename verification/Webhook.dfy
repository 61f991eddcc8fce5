/**
 Webhook delivery: a bounded event queue, one delivery loop, and retry timers that put a failed delivery
 back with the next attempt number. Every interleaving of dispatches, deliveries and timers is a run.
 */
module Webhook {
  import opened Common
  import opened Domain

  const QUEUE_CAP: nat := 500
  const MAX_ATTEMPTS: nat := 5
  const SCHEDULE: seq<Time> := [1 * SECOND, 5 * SECOND, 25 * SECOND, 2 * MINUTE, 10 * MINUTE]

  datatype Hook = Hook(id: string, events: seq<string>)

  /** One delivery to make: a payload for a webhook. */
  datatype Pair = Pair(payload: nat, hook: string)

  datatype Job = Job(pair: Pair, attempt: nat)

  datatype Timer = Timer(job: Job, after: Time)

  /** `sent` is the log of requests made; `issued` the number of payload ids given out. */
  datatype State = State(queue: seq<Job>, timers: seq<Timer>, hooks: map<string, seq<Hook>>, sent: seq<Job>, issued: nat, cancelled: bool, stopped: bool)

  /** Blocked: the payload cannot be encoded, is too large, the address is refused, or the secret is unreadable. */
  datatype Outcome = Blocked | Accepted | Failed

  /** After a cancellation the loop may still take queued jobs until its select picks the cancellation. */
  datatype Step =
    | Load(hooks: map<string, seq<Hook>>)
    | Dispatch(event: string, tenant: string)
    | Deliver(outcome: Outcome)
    | Fire(i: nat)
    | Cancel
    | LeaveLoop

  function Init(): State {
    State([], [], map[], [], 0, false, false)
  }

  /** Webhook ids are primary keys. */
  predicate DistinctHooks(hooks: seq<Hook>) {
    forall i, j | 0 <= i < j < |hooks| :: hooks[i].id != hooks[j].id
  }

  predicate Enabled(s: State, step: Step) {
    match step
    case Load(hooks) => forall t | t in hooks :: DistinctHooks(hooks[t])
    case Dispatch(_, _) => true
    case Deliver(_) => s.queue != [] && !s.stopped
    case Fire(i) => i < |s.timers|
    case Cancel => true
    case LeaveLoop => s.cancelled && !s.stopped
  }

  /** A full queue drops what does not fit. */
  function Offer(queue: seq<Job>, job: Job): seq<Job> {
    if |queue| < QUEUE_CAP then queue + [job] else queue
  }

  function OfferAll(queue: seq<Job>, payload: nat, hooks: seq<Hook>, event: string): (r: seq<Job>)
    decreases |hooks|
  {
    if hooks == [] then queue
    else
      var h := hooks[|hooks| - 1];
      var q := OfferAll(queue, payload, hooks[..|hooks| - 1], event);
      if event in h.events then Offer(q, Job(Pair(payload, h.id), 1)) else q
  }

  function HooksOf(s: State, tenant: string): seq<Hook> {
    if tenant in s.hooks then s.hooks[tenant] else []
  }

  function Retry(job: Job): (r: seq<Timer>) {
    if 1 <= job.attempt < MAX_ATTEMPTS then [Timer(job, SCHEDULE[job.attempt - 1])] else []
  }

  function Apply(s: State, step: Step): State
    requires Enabled(s, step)
  {
    match step
    case Load(hooks) => s.(hooks := hooks)
    case Dispatch(event, tenant) =>
      if HooksOf(s, tenant) == [] then s
      else s.(queue := OfferAll(s.queue, s.issued, HooksOf(s, tenant), event), issued := s.issued + 1)
    case Deliver(outcome) =>
      var job := s.queue[0];
      var rest := s.(queue := s.queue[1..]);
      (match outcome
       case Blocked => rest
       case Accepted => rest.(sent := s.sent + [job])
       case Failed => rest.(sent := s.sent + [job], timers := s.timers + Retry(job)))
    case Fire(i) =>
      var job := s.timers[i].job;
      s.(timers := s.timers[..i] + s.timers[i + 1..], queue := Offer(s.queue, job.(attempt := job.attempt + 1)))
    case Cancel => s.(cancelled := true)
    case LeaveLoop => s.(stopped := true)
  }

  function Run(s: State, steps: seq<Step>): State
    decreases |steps|
  {
    if steps == [] then s
    else
      var before := Run(s, steps[..|steps| - 1]);
      if Enabled(before, steps[|steps| - 1]) then Apply(before, steps[|steps| - 1]) else before
  }

  /** Once the loop has been left nothing more is sent; what is queued stays, behind it what timers still put back. */
  lemma {:induction false} NothingSentAfterLeaving(s: State, steps: seq<Step>)
    requires s.stopped
    ensures var s' := Run(s, steps); s'.stopped && s'.sent == s.sent && s.queue <= s'.queue
    decreases |steps|
  {
    if steps != [] {
      var n := |steps| - 1;
      NothingSentAfterLeaving(s, steps[..n]);
      var before := Run(s, steps[..n]);
      if steps[n].Dispatch? {
        OfferAllAppends(before.queue, before.issued, HooksOf(before, steps[n].tenant), steps[n].event);
      }
    }
  }

  lemma {:induction false} OfferAllAppends(queue: seq<Job>, payload: nat, hooks: seq<Hook>, event: string)
    ensures queue <= OfferAll(queue, payload, hooks, event)
    decreases |hooks|
  {
    if hooks != [] {
      OfferAllAppends(queue, payload, hooks[..|hooks| - 1], event);
    }
  }

  /* ---------- termination ---------- */

  function Left(attempt: nat): nat {
    if attempt <= 6 then 6 - attempt else 0
  }

  function QueueWeights(queue: seq<Job>): seq<nat> {
    seq(|queue|, i requires 0 <= i < |queue| => Left(queue[i].attempt))
  }

  /** A timer stands for the attempt it will start. */
  function TimerWeights(timers: seq<Timer>): seq<nat> {
    seq(|timers|, i requires 0 <= i < |timers| => Left(timers[i].job.attempt + 1))
  }

  function QueueWork(queue: seq<Job>): nat {
    Sum(QueueWeights(queue))
  }

  function TimerWork(timers: seq<Timer>): nat {
    Sum(TimerWeights(timers))
  }

  /** The sum of the attempts still possible. */
  function Work(s: State): nat {
    QueueWork(s.queue) + TimerWork(s.timers)
  }

  lemma QueueWorkConcat(a: seq<Job>, b: seq<Job>)
    ensures QueueWork(a + b) == QueueWork(a) + QueueWork(b)
  {
    assert QueueWeights(a + b) == QueueWeights(a) + QueueWeights(b);
    SumConcat(QueueWeights(a), QueueWeights(b));
  }

  lemma TimerWorkConcat(a: seq<Timer>, b: seq<Timer>)
    ensures TimerWork(a + b) == TimerWork(a) + TimerWork(b)
  {
    assert TimerWeights(a + b) == TimerWeights(a) + TimerWeights(b);
    SumConcat(TimerWeights(a), TimerWeights(b));
  }

  lemma OneJobWork(job: Job)
    ensures QueueWork([job]) == Left(job.attempt)
  {
    var one := [Left(job.attempt)];
    assert QueueWeights([job]) == one;
    assert Sum(one) == Sum(one[..0]) + one[0];
  }

  lemma OneTimerWork(t: Timer)
    ensures TimerWork([t]) == Left(t.job.attempt + 1)
  {
    var one := [Left(t.job.attempt + 1)];
    assert TimerWeights([t]) == one;
    assert Sum(one) == Sum(one[..0]) + one[0];
  }

  lemma QueueWorkHead(queue: seq<Job>)
    requires queue != []
    ensures QueueWork(queue) == Left(queue[0].attempt) + QueueWork(queue[1..])
  {
    assert queue == [queue[0]] + queue[1..];
    QueueWorkConcat([queue[0]], queue[1..]);
    OneJobWork(queue[0]);
  }

  lemma TimerWorkRemove(timers: seq<Timer>, i: nat)
    requires i < |timers|
    ensures TimerWork(timers) == Left(timers[i].job.attempt + 1) + TimerWork(timers[..i] + timers[i + 1..])
  {
    var before, t, after := timers[..i], timers[i], timers[i + 1..];
    assert timers == before + ([t] + after);
    TimerWorkConcat(before, [t] + after);
    TimerWorkConcat([t], after);
    TimerWorkConcat(before, after);
    OneTimerWork(t);
  }

  lemma OfferWork(queue: seq<Job>, job: Job)
    ensures QueueWork(Offer(queue, job)) <= QueueWork(queue) + Left(job.attempt)
  {
    QueueWorkConcat(queue, [job]);
    OneJobWork(job);
  }

  lemma RetryWork(timers: seq<Timer>, job: Job)
    requires 1 <= job.attempt <= MAX_ATTEMPTS
    ensures TimerWork(timers + Retry(job)) + 1 <= TimerWork(timers) + Left(job.attempt)
  {
    TimerWorkConcat(timers, Retry(job));
    if job.attempt < MAX_ATTEMPTS {
      OneTimerWork(Timer(job, SCHEDULE[job.attempt - 1]));
    }
  }

  /* ---------- what every step keeps ---------- */

  /** Attempt numbers in range, payload ids issued, queue within capacity. */
  predicate Shaped(s: State) {
    && |s.queue| <= QUEUE_CAP
    && (forall i | 0 <= i < |s.queue| :: 1 <= s.queue[i].attempt <= MAX_ATTEMPTS && s.queue[i].pair.payload < s.issued)
    && (forall i | 0 <= i < |s.timers| :: TimerOk(s.timers[i]) && s.timers[i].job.pair.payload < s.issued)
    && (forall i | 0 <= i < |s.sent| :: s.sent[i].pair.payload < s.issued)
    && (forall t | t in s.hooks :: DistinctHooks(s.hooks[t]))
  }

  /** The fourth retry is the last, so the schedule's final entry is never used. */
  predicate TimerOk(t: Timer) {
    1 <= t.job.attempt < MAX_ATTEMPTS && t.after == SCHEDULE[t.job.attempt - 1]
  }

  lemma {:induction false} OfferAllShaped(s: State, hooks: seq<Hook>, event: string, payload: nat)
    requires |s.queue| <= QUEUE_CAP
    requires forall i | 0 <= i < |s.queue| :: 1 <= s.queue[i].attempt <= MAX_ATTEMPTS && s.queue[i].pair.payload <= payload
    ensures var q := OfferAll(s.queue, payload, hooks, event);
            && |q| <= QUEUE_CAP
            && forall i | 0 <= i < |q| :: 1 <= q[i].attempt <= MAX_ATTEMPTS && q[i].pair.payload <= payload
    decreases |hooks|
  {
    if hooks != [] {
      OfferAllShaped(s, hooks[..|hooks| - 1], event, payload);
    }
  }

  lemma StepKeepsShape(s: State, step: Step)
    requires Shaped(s) && Enabled(s, step)
    ensures Shaped(Apply(s, step))
  {
    if step.Dispatch? {
      OfferAllShaped(s, HooksOf(s, step.tenant), step.event, s.issued);
    }
  }

  /**
   Every delivery uses up at least one of the attempts still possible, a timer never adds one, and only a
   dispatch does.
   */
  lemma {:induction false} StepUsesWork(s: State, step: Step)
    requires Shaped(s) && Enabled(s, step) && !step.Dispatch?
    ensures Work(Apply(s, step)) + (if step.Deliver? then 1 else 0) <= Work(s)
  {
    if step.Deliver? {
      DeliverUsesWork(s, step);
    } else if step.Fire? {
      FireUsesWork(s, step);
    }
  }

  lemma {:induction false} FireUsesWork(s: State, step: Step)
    requires Shaped(s) && Enabled(s, step) && step.Fire?
    ensures Work(Apply(s, step)) <= Work(s)
  {
    FiredWork(s.queue, s.timers, step.i);
  }

  lemma {:induction false} DeliverUsesWork(s: State, step: Step)
    requires Shaped(s) && Enabled(s, step) && step.Deliver?
    ensures Work(Apply(s, step)) + 1 <= Work(s)
  {
    var job := s.queue[0];
    QueueWorkHead(s.queue);
    RetryWork(s.timers, job);
    assert Left(job.attempt) >= 1;
  }

  lemma FiredWork(queue: seq<Job>, timers: seq<Timer>, i: nat)
    requires i < |timers|
    ensures var job := timers[i].job;
            QueueWork(Offer(queue, job.(attempt := job.attempt + 1))) + TimerWork(timers[..i] + timers[i + 1..])
            <= QueueWork(queue) + TimerWork(timers)
  {
    var job := timers[i].job;
    TimerWorkRemove(timers, i);
    OfferWork(queue, job.(attempt := job.attempt + 1));
  }

  /** The deliveries a run makes from a state. */
  function Deliveries(s: State, steps: seq<Step>): nat
    decreases |steps|
  {
    if steps == [] then 0
    else
      var last := steps[|steps| - 1];
      Deliveries(s, steps[..|steps| - 1]) + if last.Deliver? && Enabled(Run(s, steps[..|steps| - 1]), last) then 1 else 0
  }

  /** Without new dispatches deliveries stop: there are at most as many as the work left at the start. */
  lemma {:induction false} RetriesTerminate(s: State, steps: seq<Step>)
    requires Shaped(s) && forall i | 0 <= i < |steps| :: !steps[i].Dispatch?
    ensures Shaped(Run(s, steps)) && Deliveries(s, steps) + Work(Run(s, steps)) <= Work(s)
    decreases |steps|
  {
    if steps != [] {
      var before, last := steps[..|steps| - 1], steps[|steps| - 1];
      RetriesTerminate(s, before);
      if Enabled(Run(s, before), last) {
        StepKeepsShape(Run(s, before), last);
        StepUsesWork(Run(s, before), last);
      }
    }
  }

  lemma {:induction false} RunKeepsShape(steps: seq<Step>)
    ensures Shaped(Run(Init(), steps))
    decreases |steps|
  {
    if steps != [] {
      var before := steps[..|steps| - 1];
      RunKeepsShape(before);
      if Enabled(Run(Init(), before), steps[|steps| - 1]) {
        StepKeepsShape(Run(Init(), before), steps[|steps| - 1]);
      }
    }
  }
}
