/** Why a webhook gets a delivery: a dispatched event it is subscribed to, and after a failure the wait of the schedule. */
module WebhookCauses {
  import opened Common
  import opened Domain
  import opened Webhook

  /* ---------- what a dispatch offers ---------- */

  /** A first attempt for each webhook subscribed to the event, in their order. */
  function FirstAttempts(payload: nat, hooks: seq<Hook>, event: string): seq<Job>
    decreases |hooks|
  {
    if hooks == [] then []
    else
      var n := |hooks| - 1;
      FirstAttempts(payload, hooks[..n], event) + if event in hooks[n].events then [Job(Pair(payload, hooks[n].id), 1)] else []
  }

  /** As much of a queue as there is room for. */
  function Fitting(queue: seq<Job>): seq<Job> {
    if |queue| <= QUEUE_CAP then queue else queue[..QUEUE_CAP]
  }

  /** What does not fit is dropped, and nothing else. */
  lemma {:induction false} OfferAllFits(queue: seq<Job>, payload: nat, hooks: seq<Hook>, event: string)
    requires |queue| <= QUEUE_CAP
    ensures OfferAll(queue, payload, hooks, event) == Fitting(queue + FirstAttempts(payload, hooks, event))
    decreases |hooks|
  {
    if hooks == [] {
      assert queue + [] == queue;
    } else {
      var n := |hooks| - 1;
      OfferAllFits(queue, payload, hooks[..n], event);
      var before, more := FirstAttempts(payload, hooks[..n], event), if event in hooks[n].events then [Job(Pair(payload, hooks[n].id), 1)] else [];
      FitOneMore(queue + before, more);
      Assoc(queue, before, more);
    }
  }

  lemma FitOneMore(queue: seq<Job>, more: seq<Job>)
    requires |more| <= 1
    ensures Fitting(queue + more) == if more == [] then Fitting(queue) else Offer(Fitting(queue), more[0])
  {
    if more == [] {
      assert queue + more == queue;
    } else {
      assert more == [more[0]];
    }
  }

  lemma {:induction false} FirstAttemptsIff(payload: nat, hooks: seq<Hook>, event: string, j: Job)
    ensures j in FirstAttempts(payload, hooks, event) <==>
              j.attempt == 1 && j.pair.payload == payload && exists h | h in hooks :: h.id == j.pair.hook && event in h.events
    decreases |hooks|
  {
    if hooks != [] {
      var n := |hooks| - 1;
      FirstAttemptsIff(payload, hooks[..n], event, j);
      assert hooks == hooks[..n] + [hooks[n]];
    }
  }

  /* ---------- over runs ---------- */

  /** The pair is queued, waiting for a retry, or was sent. */
  ghost predicate Concerns(s: State, x: Pair) {
    || (exists j | j in s.queue :: j.pair == x)
    || (exists t | t in s.timers :: t.job.pair == x)
    || (exists j | j in s.sent :: j.pair == x)
  }

  /** This dispatch gave out the payload, to a tenant with this webhook, which was subscribed to the event. */
  predicate Causes(s: State, step: Step, x: Pair) {
    && step.Dispatch? && s.issued == x.payload && step.tenant in s.hooks
    && exists h | h in s.hooks[step.tenant] :: h.id == x.hook && step.event in h.events
  }

  lemma OfferedIsSubscribed(queue: seq<Job>, payload: nat, hooks: seq<Hook>, event: string, j: Job)
    requires |queue| <= QUEUE_CAP && j in OfferAll(queue, payload, hooks, event) && j !in queue
    ensures j.pair.payload == payload && exists h | h in hooks :: h.id == j.pair.hook && event in h.events
  {
    OfferAllFits(queue, payload, hooks, event);
    assert j in queue + FirstAttempts(payload, hooks, event);
    FirstAttemptsIff(payload, hooks, event, j);
  }

  lemma StepConcerns(s: State, step: Step, x: Pair)
    requires Shaped(s) && Enabled(s, step) && Concerns(Apply(s, step), x)
    ensures Concerns(s, x) || Causes(s, step, x)
  {
    var s' := Apply(s, step);
    if step.Dispatch? && HooksOf(s, step.tenant) != [] && !Concerns(s, x) {
      var j :| j in s'.queue && j.pair == x;
      OfferedIsSubscribed(s.queue, s.issued, HooksOf(s, step.tenant), step.event, j);
    } else if step.Deliver? {
      assert s.queue == [s.queue[0]] + s.queue[1..];
    } else if step.Fire? {
      var t := s.timers[step.i];
      assert t in s.timers;
    }
  }

  /** Whatever is queued, waits or was sent was caused by a dispatch of the run to a webhook subscribed to its event. */
  lemma {:induction false} EveryJobIsCaused(steps: seq<Step>, x: Pair) returns (i: nat)
    requires Concerns(Run(Init(), steps), x)
    ensures i < |steps| && Causes(Run(Init(), steps[..i]), steps[i], x)
    decreases |steps|
  {
    var n := |steps| - 1;
    var before := steps[..n];
    RunKeepsShape(before);
    if Concerns(Run(Init(), before), x) {
      i := EveryJobIsCaused(before, x);
      assert before[..i] == steps[..i];
    } else {
      StepConcerns(Run(Init(), before), steps[n], x);
      i := n;
    }
  }

  /* ---------- the waits ---------- */

  /** After the first failure a second, then 5, then 25, then two minutes. */
  predicate WaitsAsScheduled(t: Timer) {
    || (t.job.attempt == 1 && t.after == 1_000_000_000)
    || (t.job.attempt == 2 && t.after == 5_000_000_000)
    || (t.job.attempt == 3 && t.after == 25_000_000_000)
    || (t.job.attempt == 4 && t.after == 120_000_000_000)
  }

  /** In every run every retry waits as scheduled for the attempt that failed, and there is none after the fifth. */
  lemma {:induction false} RetriesWait(steps: seq<Step>)
    ensures forall t | t in Run(Init(), steps).timers :: WaitsAsScheduled(t)
    decreases |steps|
  {
    if steps != [] {
      var before, step := steps[..|steps| - 1], steps[|steps| - 1];
      RetriesWait(before);
      RunKeepsShape(before);
      if Enabled(Run(Init(), before), step) {
        StepWaits(Run(Init(), before), step);
      }
    }
  }

  lemma StepWaits(s: State, step: Step)
    requires Enabled(s, step) && forall t | t in s.timers :: WaitsAsScheduled(t)
    ensures forall t | t in Apply(s, step).timers :: WaitsAsScheduled(t)
  {
    if step.Deliver? {
      RetryWaits(s.queue[0]);
    }
  }

  lemma RetryWaits(job: Job)
    ensures forall t | t in Retry(job) :: t.job == job && WaitsAsScheduled(t)
    ensures Retry(job) != [] <==> 1 <= job.attempt <= 4
  {
    assert SCHEDULE[0] == 1_000_000_000 && SCHEDULE[1] == 5_000_000_000 && SCHEDULE[2] == 25_000_000_000 && SCHEDULE[3] == 120_000_000_000;
  }
}
