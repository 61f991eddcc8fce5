/**
 The validation worker pool as a state machine: a bounded queue, workers that take, check for cancellation,
 execute and answer, and callers that read one-way result channels. Every interleaving is a run.
 */
module WorkerPool {
  import opened Common

  /** Each accepted job is a new object with its own result channel; no channel, or one with so many slots. */
  datatype Job = Job(ticket: nat, slots: Option<nat>)

  datatype Result = Verdict(code: int) | InternalError

  datatype Worker = Waiting | Holding(job: Job) | Executing(job: Job) | Exited

  datatype Answer = Answer(job: Job, result: Result)

  datatype Pool = Pool(
    cap: nat, queue: seq<Job>, workers: seq<Worker>, closed: bool, cancelled: bool,
    accepted: seq<Job>, dequeued: seq<Job>, answered: seq<Answer>, discarded: seq<Job>,
    delivered: map<nat, seq<Result>>, taken: map<nat, nat>)

  /** `reader` says whether somebody is blocked on the result channel at that moment. */
  datatype Step =
    | Enqueue(slots: Option<nat>)
    | Handoff(slots: Option<nat>, w: nat)
    | Dequeue(w: nat)
    | Check(w: nat)
    | Finish(w: nat, panics: bool, code: int, reader: bool)
    | LoopAgain(w: nat)
    | TakeResult(ticket: nat)
    | Cancel
    | Close

  function Init(cap: nat, workers: nat): Pool {
    Pool(cap, [], seq(workers, _ => Waiting), false, false, [], [], [], [], map[], map[])
  }

  predicate At(p: Pool, w: nat) {
    w < |p.workers|
  }

  /** Enqueueing after the queue was closed is the caller's error. */
  predicate Enabled(p: Pool, step: Step) {
    match step
    case Enqueue(_) => !p.closed
    case Handoff(_, w) => !p.closed && p.queue == [] && At(p, w) && p.workers[w].Waiting?
    case Dequeue(w) => p.queue != [] && At(p, w) && p.workers[w].Waiting?
    case Check(w) => At(p, w) && p.workers[w].Holding?
    case Finish(w, _, _, _) => At(p, w) && p.workers[w].Executing?
    case LoopAgain(w) => p.closed && p.queue == [] && At(p, w) && p.workers[w].Waiting?
    case TakeResult(t) => t in p.delivered && TakenBy(p.taken, t) < |p.delivered[t]|
    case Cancel => true
    case Close => true
  }

  function TakenBy(taken: map<nat, nat>, t: nat): nat {
    if t in taken then taken[t] else 0
  }

  function DeliveredTo(delivered: map<nat, seq<Result>>, t: nat): seq<Result> {
    if t in delivered then delivered[t] else []
  }

  /** A send that would block is dropped. */
  predicate SendGoesThrough(p: Pool, job: Job, reader: bool) {
    job.slots.Some? && (reader || |DeliveredTo(p.delivered, job.ticket)| < TakenBy(p.taken, job.ticket) + job.slots.value)
  }

  function Send(p: Pool, job: Job, res: Result, reader: bool): map<nat, seq<Result>> {
    if SendGoesThrough(p, job, reader) then p.delivered[job.ticket := DeliveredTo(p.delivered, job.ticket) + [res]] else p.delivered
  }

  function NewJob(p: Pool, slots: Option<nat>): Job {
    Job(|p.accepted|, slots)
  }

  function Apply(p: Pool, step: Step): Pool
    requires Enabled(p, step)
  {
    match step
    case Enqueue(slots) =>
      if |p.queue| < p.cap
      then p.(queue := p.queue + [NewJob(p, slots)], accepted := p.accepted + [NewJob(p, slots)])
      else p
    case Handoff(slots, w) =>
      var job := NewJob(p, slots);
      p.(accepted := p.accepted + [job], dequeued := p.dequeued + [job], workers := p.workers[w := Holding(job)])
    case Dequeue(w) =>
      p.(queue := p.queue[1..], dequeued := p.dequeued + [p.queue[0]], workers := p.workers[w := Holding(p.queue[0])])
    case Check(w) =>
      var job := p.workers[w].job;
      if p.cancelled then p.(discarded := p.discarded + [job], workers := p.workers[w := Exited])
      else p.(workers := p.workers[w := Executing(job)])
    case Finish(w, panics, code, reader) =>
      var job := p.workers[w].job;
      var res := if panics then InternalError else Verdict(code);
      p.(answered := p.answered + [Answer(job, res)], delivered := Send(p, job, res, reader), workers := p.workers[w := Waiting])
    case LoopAgain(w) => if p.cancelled then p.(workers := p.workers[w := Exited]) else p
    case TakeResult(t) => p.(taken := p.taken[t := TakenBy(p.taken, t) + 1])
    case Cancel => p.(cancelled := true)
    case Close => p.(closed := true)
  }

  function Run(p: Pool, steps: seq<Step>): Pool
    decreases |steps|
  {
    if steps == [] then p
    else
      var before := Run(p, steps[..|steps| - 1]);
      if Enabled(before, steps[|steps| - 1]) then Apply(before, steps[|steps| - 1]) else before
  }

  /* ---------- counting over workers ---------- */

  function Held(w: Worker): multiset<Job> {
    if w.Holding? || w.Executing? then multiset{w.job} else multiset{}
  }

  function InFlight(ws: seq<Worker>): multiset<Job> {
    if ws == [] then multiset{} else InFlight(ws[..|ws| - 1]) + Held(ws[|ws| - 1])
  }

  function Exits(ws: seq<Worker>): nat {
    if ws == [] then 0 else Exits(ws[..|ws| - 1]) + if ws[|ws| - 1].Exited? then 1 else 0
  }

  function Jobs(xs: seq<Answer>): seq<Job> {
    seq(|xs|, i requires 0 <= i < |xs| => xs[i].job)
  }

  /** How often a worker has this job in hand. */
  function Hands(w: Worker, j: Job): (n: nat)
    ensures n == Held(w)[j]
  {
    if (w.Holding? || w.Executing?) && w.job == j then 1 else 0
  }

  function AllHands(ws: seq<Worker>, j: Job): seq<nat> {
    seq(|ws|, i requires 0 <= i < |ws| => Hands(ws[i], j))
  }

  lemma {:induction false} HandsAreInFlight(ws: seq<Worker>, j: Job)
    ensures InFlight(ws)[j] == Sum(AllHands(ws, j))
    decreases |ws|
  {
    if ws != [] {
      var n := |ws| - 1;
      HandsAreInFlight(ws[..n], j);
      assert AllHands(ws, j)[..n] == AllHands(ws[..n], j);
    }
  }

  lemma UpdateInFlight(ws: seq<Worker>, w: nat, x: Worker)
    requires w < |ws|
    ensures InFlight(ws[w := x]) + Held(ws[w]) == InFlight(ws) + Held(x)
  {
    var before, after := InFlight(ws), InFlight(ws[w := x]);
    forall j ensures (after + Held(ws[w]))[j] == (before + Held(x))[j] {
      UpdateCount(ws, w, x, j);
    }
  }

  lemma UpdateCount(ws: seq<Worker>, w: nat, x: Worker, j: Job)
    requires w < |ws|
    ensures InFlight(ws[w := x])[j] + Hands(ws[w], j) == InFlight(ws)[j] + Hands(x, j)
  {
    HandsAreInFlight(ws, j);
    HandsAreInFlight(ws[w := x], j);
    HandsUpdated(ws, w, x, j);
    SumUpdate(AllHands(ws, j), w, Hands(x, j));
  }

  lemma HandsUpdated(ws: seq<Worker>, w: nat, x: Worker, j: Job)
    requires w < |ws|
    ensures AllHands(ws[w := x], j) == AllHands(ws, j)[w := Hands(x, j)]
  {
  }

  lemma {:induction false} UpdateExits(ws: seq<Worker>, w: nat, x: Worker)
    requires w < |ws|
    ensures Exits(ws[w := x]) + (if ws[w].Exited? then 1 else 0) == Exits(ws) + (if x.Exited? then 1 else 0)
    decreases |ws|
  {
    var n := |ws| - 1;
    if w < n {
      UpdateExits(ws[..n], w, x);
      assert ws[w := x][..n] == ws[..n][w := x];
    } else {
      assert ws[w := x][..n] == ws[..n];
    }
  }

  lemma {:induction false} WorkersBound(ws: seq<Worker>)
    ensures |InFlight(ws)| + Exits(ws) <= |ws|
    decreases |ws|
  {
    if ws != [] {
      WorkersBound(ws[..|ws| - 1]);
    }
  }

  lemma {:induction false} IdleHoldsNothing(ws: seq<Worker>)
    requires forall i | 0 <= i < |ws| :: ws[i].Waiting?
    ensures InFlight(ws) == multiset{} && Exits(ws) == 0
    decreases |ws|
  {
    if ws != [] {
      IdleHoldsNothing(ws[..|ws| - 1]);
    }
  }

  lemma {:induction false} HeldIsInFlight(ws: seq<Worker>, w: nat)
    requires w < |ws| && (ws[w].Holding? || ws[w].Executing?)
    ensures ws[w].job in InFlight(ws)
    decreases |ws|
  {
    if w < |ws| - 1 {
      HeldIsInFlight(ws[..|ws| - 1], w);
    }
  }

  /* ---------- conservation ---------- */

  /** What was taken off the queue is in a worker's hands, answered or discarded, each job in one place. */
  ghost predicate Balanced(dequeued: seq<Job>, ws: seq<Worker>, answered: seq<Answer>, discarded: seq<Job>) {
    multiset(dequeued) == InFlight(ws) + multiset(Jobs(answered)) + multiset(discarded)
  }

  ghost predicate InBalance(p: Pool) {
    Balanced(p.dequeued, p.workers, p.answered, p.discarded)
  }

  /** Jobs leave the queue in the order they were accepted. */
  ghost predicate Conserved(p: Pool) {
    p.accepted == p.dequeued + p.queue && InBalance(p)
  }

  ghost predicate Bounded(p: Pool) {
    && |p.queue| <= p.cap
    && |p.discarded| <= Exits(p.workers)
    && (!p.cancelled ==> p.discarded == [])
  }

  predicate Ticketed(jobs: seq<Job>) {
    forall i | 0 <= i < |jobs| :: jobs[i].ticket == i
  }

  /** Nothing came through, or exactly this answer; with a slot it did come through. */
  predicate Received(a: Answer, got: seq<Result>) {
    && (got == [] || got == [a.result])
    && (got == [] ==> a.job.slots.None? || a.job.slots.value == 0)
    && (a.job.slots.None? ==> got == [])
  }

  predicate AnswersReceived(answered: seq<Answer>, delivered: map<nat, seq<Result>>) {
    forall i | 0 <= i < |answered| :: Received(answered[i], DeliveredTo(delivered, answered[i].job.ticket))
  }

  predicate AnsweredTicket(answered: seq<Answer>, t: nat) {
    exists i :: 0 <= i < |answered| && answered[i].job.ticket == t
  }

  /** A ticket got results only from its own answer. */
  ghost predicate OneResult(p: Pool) {
    && AnswersReceived(p.answered, p.delivered)
    && (forall t | DeliveredTo(p.delivered, t) != [] :: AnsweredTicket(p.answered, t))
    && (forall t :: TakenBy(p.taken, t) <= |DeliveredTo(p.delivered, t)|)
  }

  ghost predicate Inv(p: Pool) {
    Conserved(p) && Bounded(p) && Ticketed(p.accepted) && OneResult(p)
  }

  lemma TakesJob(d: seq<Job>, ws: seq<Worker>, answered: seq<Answer>, x: seq<Job>, w: nat, job: Job)
    requires Balanced(d, ws, answered, x) && w < |ws| && ws[w].Waiting?
    ensures Balanced(d + [job], ws[w := Holding(job)], answered, x)
  {
    UpdateInFlight(ws, w, Holding(job));
    assert multiset(d + [job]) == multiset(d) + multiset{job};
    assert InFlight(ws[w := Holding(job)]) == InFlight(ws) + multiset{job};
  }

  lemma DiscardsJob(d: seq<Job>, ws: seq<Worker>, answered: seq<Answer>, x: seq<Job>, w: nat)
    requires Balanced(d, ws, answered, x) && w < |ws| && ws[w].Holding?
    ensures Balanced(d, ws[w := Exited], answered, x + [ws[w].job])
  {
    UpdateInFlight(ws, w, Exited);
    assert multiset(x + [ws[w].job]) == multiset(x) + multiset{ws[w].job};
    assert InFlight(ws) == InFlight(ws[w := Exited]) + multiset{ws[w].job};
  }

  lemma AnswersJob(d: seq<Job>, ws: seq<Worker>, answered: seq<Answer>, x: seq<Job>, w: nat, res: Result)
    requires Balanced(d, ws, answered, x) && w < |ws| && ws[w].Executing?
    ensures Balanced(d, ws[w := Waiting], answered + [Answer(ws[w].job, res)], x)
  {
    UpdateInFlight(ws, w, Waiting);
    var a := Answer(ws[w].job, res);
    JobsSnoc(answered, a);
    assert InFlight(ws) == InFlight(ws[w := Waiting]) + multiset{a.job};
    Moved(InFlight(ws[w := Waiting]), multiset(Jobs(answered)), multiset{a.job}, multiset(x));
  }

  lemma JobsSnoc(answered: seq<Answer>, a: Answer)
    ensures multiset(Jobs(answered + [a])) == multiset(Jobs(answered)) + multiset{a.job}
  {
    assert Jobs(answered + [a]) == Jobs(answered) + [a.job];
  }

  lemma Moved<T>(w: multiset<T>, a: multiset<T>, j: multiset<T>, x: multiset<T>)
    ensures (w + j) + a + x == w + (a + j) + x
  {
  }

  lemma KeepsJob(d: seq<Job>, ws: seq<Worker>, answered: seq<Answer>, x: seq<Job>, w: nat, to: Worker)
    requires Balanced(d, ws, answered, x) && w < |ws| && Held(to) == Held(ws[w])
    ensures Balanced(d, ws[w := to], answered, x)
  {
    UpdateInFlight(ws, w, to);
    Cancelled(InFlight(ws[w := to]), InFlight(ws), Held(to));
  }

  lemma Cancelled<T>(a: multiset<T>, b: multiset<T>, c: multiset<T>)
    requires a + c == b + c
    ensures a == b
  {
    assert a == (a + c) - c;
    assert b == (b + c) - c;
  }

  lemma StepKeepsOrder(p: Pool, step: Step)
    requires p.accepted == p.dequeued + p.queue && Enabled(p, step)
    ensures var p' := Apply(p, step); p'.accepted == p'.dequeued + p'.queue
  {
  }

  lemma TakeBalances(p: Pool, step: Step)
    requires InBalance(p) && Enabled(p, step) && (step.Handoff? || step.Dequeue?)
    ensures InBalance(Apply(p, step))
  {
    var job := if step.Handoff? then NewJob(p, step.slots) else p.queue[0];
    TakesJob(p.dequeued, p.workers, p.answered, p.discarded, step.w, job);
  }

  lemma CheckBalances(p: Pool, step: Step)
    requires InBalance(p) && Enabled(p, step) && (step.Check? || step.LoopAgain?)
    ensures InBalance(Apply(p, step))
  {
    if step.LoopAgain? {
      KeepsJob(p.dequeued, p.workers, p.answered, p.discarded, step.w, Exited);
    } else if p.cancelled {
      DiscardsJob(p.dequeued, p.workers, p.answered, p.discarded, step.w);
    } else {
      KeepsJob(p.dequeued, p.workers, p.answered, p.discarded, step.w, Executing(p.workers[step.w].job));
    }
  }

  lemma FinishBalances(p: Pool, step: Step)
    requires InBalance(p) && Enabled(p, step) && step.Finish?
    ensures InBalance(Apply(p, step))
  {
    AnswersJob(p.dequeued, p.workers, p.answered, p.discarded, step.w, if step.panics then InternalError else Verdict(step.code));
  }

  lemma StepConserves(p: Pool, step: Step)
    requires Conserved(p) && Enabled(p, step)
    ensures Conserved(Apply(p, step))
  {
    StepKeepsOrder(p, step);
    assert InBalance(p);
    assert InBalance(Apply(p, step)) by {
      if step.Handoff? || step.Dequeue? {
        TakeBalances(p, step);
      } else if step.Check? || step.LoopAgain? {
        CheckBalances(p, step);
      } else if step.Finish? {
        FinishBalances(p, step);
      }
    }
  }

  lemma StepBounds(p: Pool, step: Step)
    requires Bounded(p) && Ticketed(p.accepted) && Enabled(p, step)
    ensures Bounded(Apply(p, step)) && Ticketed(Apply(p, step).accepted)
  {
    if step.Handoff? || step.Dequeue? || step.Check? || step.Finish? || step.LoopAgain? {
      UpdateExits(p.workers, step.w, Apply(p, step).workers[step.w]);
    }
  }

  lemma {:induction false} TicketsOnce(s: seq<Job>, job: Job)
    requires Ticketed(s)
    ensures multiset(s)[job] <= 1
    decreases |s|
  {
    if s != [] {
      var n := |s| - 1;
      TicketsOnce(s[..n], job);
      assert s == s[..n] + [s[n]];
      assert s[n] !in s[..n];
    }
  }

  /** In a ticketed sequence split into parts, jobs of different parts have different tickets. */
  lemma OnePlace(s: seq<Job>, a: multiset<Job>, b: multiset<Job>, x: Job, y: Job)
    requires Ticketed(s) && a + b <= multiset(s) && x in a && y in b
    ensures x.ticket != y.ticket
  {
    assert (a + b)[x] >= 1 && (a + b)[y] >= 1 && x in multiset(s) && y in multiset(s);
    assert x in s && y in s;
    TicketsOnce(s, x);
    assert (a + b)[x] == a[x] + b[x];
  }

  lemma Dequeued(p: Pool)
    requires Conserved(p) && Ticketed(p.accepted)
    ensures Ticketed(p.dequeued)
  {
    forall i | 0 <= i < |p.dequeued| ensures p.dequeued[i].ticket == i {
      assert p.accepted[i] == p.dequeued[i];
    }
  }

  /** A job in flight has not been answered. */
  lemma InFlightIsUnanswered(p: Pool, w: nat, i: nat)
    requires Conserved(p) && Ticketed(p.accepted) && At(p, w) && (p.workers[w].Holding? || p.workers[w].Executing?)
    requires i < |p.answered|
    ensures p.answered[i].job.ticket != p.workers[w].job.ticket
  {
    Dequeued(p);
    HeldIsInFlight(p.workers, w);
    var jobs := Jobs(p.answered);
    assert jobs[i] in multiset(jobs);
    OnePlace(p.dequeued, InFlight(p.workers), multiset(jobs), p.workers[w].job, jobs[i]);
  }

  /** An answer for a ticket not answered before adds that ticket's only result. */
  lemma AnswerDelivered(p: Pool, job: Job, res: Result, reader: bool)
    requires OneResult(p) && !AnsweredTicket(p.answered, job.ticket)
    ensures OneResult(p.(answered := p.answered + [Answer(job, res)], delivered := Send(p, job, res, reader)))
  {
    var answered := p.answered + [Answer(job, res)];
    var delivered := Send(p, job, res, reader);
    assert DeliveredTo(p.delivered, job.ticket) == [];
    forall i | 0 <= i < |answered| ensures Received(answered[i], DeliveredTo(delivered, answered[i].job.ticket)) {
      assert i < |p.answered| ==> answered[i] == p.answered[i] && answered[i].job.ticket != job.ticket;
    }
    forall t | DeliveredTo(delivered, t) != [] ensures AnsweredTicket(answered, t) {
      if t == job.ticket {
        assert answered[|p.answered|].job.ticket == t;
      } else {
        assert AnsweredTicket(p.answered, t);
        var i :| 0 <= i < |p.answered| && p.answered[i].job.ticket == t;
        assert answered[i].job.ticket == t;
      }
    }
  }

  lemma StepGivesOneResult(p: Pool, step: Step)
    requires Conserved(p) && Ticketed(p.accepted) && OneResult(p) && Enabled(p, step)
    ensures OneResult(Apply(p, step))
  {
    if step.Finish? {
      forall i | 0 <= i < |p.answered| ensures p.answered[i].job.ticket != p.workers[step.w].job.ticket {
        InFlightIsUnanswered(p, step.w, i);
      }
      AnswerDelivered(p, p.workers[step.w].job, if step.panics then InternalError else Verdict(step.code), step.reader);
    }
  }

  lemma StepKeepsInv(p: Pool, step: Step)
    requires Inv(p) && Enabled(p, step)
    ensures Inv(Apply(p, step))
  {
    StepConserves(p, step);
    StepBounds(p, step);
    StepGivesOneResult(p, step);
  }

  lemma {:induction false} RunKeepsInv(p: Pool, steps: seq<Step>)
    requires Inv(p)
    ensures Inv(Run(p, steps)) && |Run(p, steps).workers| == |p.workers| && Run(p, steps).cap == p.cap
    decreases |steps|
  {
    if steps != [] {
      var before := steps[..|steps| - 1];
      RunKeepsInv(p, before);
      if Enabled(Run(p, before), steps[|steps| - 1]) {
        StepKeepsInv(Run(p, before), steps[|steps| - 1]);
      }
    }
  }

  lemma InitHasInv(cap: nat, workers: nat)
    ensures Inv(Init(cap, workers))
  {
    IdleHoldsNothing(Init(cap, workers).workers);
    assert Jobs([]) == [];
  }

  /**
   In every run accepted jobs are queued, in flight, answered or discarded, each in one place; the queue
   stays within its capacity, jobs in flight and discarded together within the number of workers, and
   nothing is discarded before cancellation.
   */
  lemma JobsAreConserved(cap: nat, workers: nat, steps: seq<Step>)
    ensures var p := Run(Init(cap, workers), steps);
            && multiset(p.accepted) == multiset(p.queue) + InFlight(p.workers) + multiset(Jobs(p.answered)) + multiset(p.discarded)
            && p.dequeued + p.queue == p.accepted
            && |p.queue| <= cap && |InFlight(p.workers)| + |p.discarded| <= workers
            && (!p.cancelled ==> p.discarded == [])
  {
    InitHasInv(cap, workers);
    RunKeepsInv(Init(cap, workers), steps);
    WorkersBound(Run(Init(cap, workers), steps).workers);
  }

  /** Every answered job with a slot got exactly one result, its own, panics included. */
  lemma AnsweredOnce(cap: nat, workers: nat, steps: seq<Step>, i: nat)
    requires i < |Run(Init(cap, workers), steps).answered|
    ensures var p := Run(Init(cap, workers), steps);
            var a := p.answered[i];
            && (a.job.slots.Some? && a.job.slots.value > 0 ==> DeliveredTo(p.delivered, a.job.ticket) == [a.result])
            && |DeliveredTo(p.delivered, a.job.ticket)| <= 1
            && forall j | 0 <= j < |p.answered| && j != i :: p.answered[j].job.ticket != a.job.ticket
  {
    InitHasInv(cap, workers);
    RunKeepsInv(Init(cap, workers), steps);
    var p := Run(Init(cap, workers), steps);
    forall j | 0 <= j < |p.answered| && j != i ensures p.answered[j].job.ticket != p.answered[i].job.ticket {
      AnswersDistinct(p, i, j);
    }
  }

  /** A job still queued, in flight or discarded has no result. */
  lemma UnansweredGetNothing(cap: nat, workers: nat, steps: seq<Step>, t: nat)
    requires !AnsweredTicket(Run(Init(cap, workers), steps).answered, t)
    ensures DeliveredTo(Run(Init(cap, workers), steps).delivered, t) == []
  {
    InitHasInv(cap, workers);
    RunKeepsInv(Init(cap, workers), steps);
  }

  lemma AnswersDistinct(p: Pool, i: nat, j: nat)
    requires Conserved(p) && Ticketed(p.accepted) && i < |p.answered| && j < |p.answered| && i != j
    ensures p.answered[i].job.ticket != p.answered[j].job.ticket
  {
    Dequeued(p);
    var jobs := Jobs(p.answered);
    var m := if i < j then j else i;
    assert jobs == jobs[..m] + jobs[m..];
    assert jobs[..m][if i < j then i else j] in multiset(jobs[..m]) && jobs[m..][0] in multiset(jobs[m..]);
    assert multiset(jobs[..m]) + multiset(jobs[m..]) == multiset(jobs) <= multiset(p.dequeued);
    OnePlace(p.dequeued, multiset(jobs[..m]), multiset(jobs[m..]), jobs[if i < j then i else j], jobs[m]);
  }

  /* ---------- what a result says ---------- */

  /** This step ended the execution of the job: with an internal error if it panicked, else with its verdict. */
  predicate Executed(p: Pool, step: Step, a: Answer) {
    && step.Finish? && At(p, step.w) && p.workers[step.w] == Executing(a.job)
    && a.result == if step.panics then InternalError else Verdict(step.code)
  }

  lemma StepAnswers(p: Pool, step: Step)
    requires Enabled(p, step)
    ensures var more := Apply(p, step).answered;
            || more == p.answered
            || (|more| == |p.answered| + 1 && more[..|p.answered|] == p.answered && Executed(p, step, more[|p.answered|]))
  {
  }

  lemma StepStarts(p: Pool, step: Step, w: nat)
    requires Enabled(p, step) && p.cancelled && w < |p.workers|
    ensures var p' := Apply(p, step); p'.cancelled && |p'.workers| == |p.workers| && (p'.workers[w].Executing? ==> p'.workers[w] == p.workers[w])
  {
  }

  /** Every answer of a run is that of an execution of its job in the run. */
  lemma {:induction false} EveryAnswerWasExecuted(p: Pool, steps: seq<Step>, i: nat) returns (k: nat)
    requires p.answered == [] && i < |Run(p, steps).answered|
    ensures k < |steps| && Executed(Run(p, steps[..k]), steps[k], Run(p, steps).answered[i])
    decreases |steps|
  {
    var n := |steps| - 1;
    var mid := Run(p, steps[..n]);
    if Enabled(mid, steps[n]) {
      StepAnswers(mid, steps[n]);
    }
    if i < |mid.answered| {
      k := EveryAnswerWasExecuted(p, steps[..n], i);
      assert steps[..n][..k] == steps[..k];
    } else {
      k := n;
    }
  }

  /** A cancelled pool starts no execution: whoever executes then did so before. */
  lemma {:induction false} NothingStartsAfterCancel(p: Pool, steps: seq<Step>, w: nat)
    requires p.cancelled && w < |p.workers|
    ensures var p' := Run(p, steps); p'.cancelled && w < |p'.workers| && (p'.workers[w].Executing? ==> p'.workers[w] == p.workers[w])
    decreases |steps|
  {
    if steps != [] {
      var before, step := steps[..|steps| - 1], steps[|steps| - 1];
      NothingStartsAfterCancel(p, before, w);
      if Enabled(Run(p, before), step) {
        StepStarts(Run(p, before), step, w);
      }
    }
  }

  /** No worker leaves a pool that is not cancelled, and none is ever added. */
  lemma {:induction false} WorkersStay(cap: nat, workers: nat, steps: seq<Step>)
    ensures var p := Run(Init(cap, workers), steps);
            |p.workers| == workers && (!p.cancelled ==> forall w | 0 <= w < workers :: !p.workers[w].Exited?)
    decreases |steps|
  {
    if steps != [] {
      WorkersStay(cap, workers, steps[..|steps| - 1]);
    }
  }

  /** How often somebody has read a result of this job in the run. */
  function Reads(p: Pool, steps: seq<Step>, t: nat): nat
    decreases |steps|
  {
    if steps == [] then 0
    else
      var n := |steps| - 1;
      Reads(p, steps[..n], t) + if steps[n] == TakeResult(t) && Enabled(Run(p, steps[..n]), steps[n]) then 1 else 0
  }

  lemma {:induction false} ReadsAreTaken(cap: nat, workers: nat, steps: seq<Step>, t: nat)
    ensures Reads(Init(cap, workers), steps, t) == TakenBy(Run(Init(cap, workers), steps).taken, t)
    decreases |steps|
  {
    if steps != [] {
      ReadsAreTaken(cap, workers, steps[..|steps| - 1], t);
    }
  }

  /** Over every run a caller reads no more results than the job was given, and so at most one. */
  lemma ReadAtMostOnce(cap: nat, workers: nat, steps: seq<Step>, t: nat)
    ensures var p := Init(cap, workers);
            Reads(p, steps, t) <= |DeliveredTo(Run(p, steps).delivered, t)| && Reads(p, steps, t) <= 1
  {
    var p := Init(cap, workers);
    ReadsAreTaken(cap, workers, steps, t);
    InitHasInv(cap, workers);
    RunKeepsInv(p, steps);
    var p' := Run(p, steps);
    if exists i :: 0 <= i < |p'.answered| && p'.answered[i].job.ticket == t {
      var i :| 0 <= i < |p'.answered| && p'.answered[i].job.ticket == t;
      assert Received(p'.answered[i], DeliveredTo(p'.delivered, t));
    }
  }

  lemma {:induction false} RunConcat(p: Pool, a: seq<Step>, b: seq<Step>)
    ensures Run(p, a + b) == Run(Run(p, a), b)
    decreases |b|
  {
    if b == [] {
      assert a + b == a;
    } else {
      var n := |b| - 1;
      assert (a + b)[..|a| + n] == a + b[..n];
      RunConcat(p, a, b[..n]);
    }
  }

  lemma RunOne(p: Pool, step: Step)
    requires Enabled(p, step)
    ensures Run(p, [step]) == Apply(p, step)
  {
    assert [step][..0] == [];
  }

  predicate Ending(p: Pool) {
    p.cancelled && p.closed
  }

  /** Takes the worker's next step towards its end. */
  function NextStep(p: Pool, w: nat): Step
    requires At(p, w)
  {
    match p.workers[w]
    case Waiting => if p.queue == [] then LoopAgain(w) else Dequeue(w)
    case Holding(_) => Check(w)
    case _ => Finish(w, false, 0, false)
  }

  function Distance(x: Worker): nat {
    match x
    case Exited => 0
    case Holding(_) => 1
    case Waiting => 2
    case Executing(_) => 3
  }

  lemma NextStepCloser(p: Pool, w: nat)
    requires Ending(p) && At(p, w) && !p.workers[w].Exited?
    ensures Enabled(p, NextStep(p, w))
    ensures var p' := Apply(p, NextStep(p, w));
            Ending(p') && |p'.workers| == |p.workers| && Distance(p'.workers[w]) < Distance(p.workers[w])
            && forall v | 0 <= v < |p.workers| && v != w :: p'.workers[v] == p.workers[v]
  {
  }

  lemma {:induction false} WorkerCanLeave(p: Pool, w: nat) returns (steps: seq<Step>)
    requires Ending(p) && At(p, w)
    ensures |steps| <= Distance(p.workers[w])
    ensures var p' := Run(p, steps); Ending(p') && p'.workers == p.workers[w := Exited]
    decreases Distance(p.workers[w])
  {
    steps := [];
    if !p.workers[w].Exited? {
      NextStepCloser(p, w);
      var p' := Apply(p, NextStep(p, w));
      var rest := WorkerCanLeave(p', w);
      RunOne(p, NextStep(p, w));
      RunConcat(p, [NextStep(p, w)], rest);
      steps := [NextStep(p, w)] + rest;
    }
  }

  /** Draining ends: once the pool is cancelled and closed, every worker can leave, each within three steps of its own. */
  lemma {:induction false} EveryWorkerCanLeave(p: Pool, n: nat) returns (steps: seq<Step>)
    requires Ending(p) && n <= |p.workers|
    ensures |steps| <= 3 * n
    ensures var p' := Run(p, steps);
            Ending(p') && |p'.workers| == |p.workers| && (forall w | 0 <= w < n :: p'.workers[w].Exited?) && p'.workers[n..] == p.workers[n..]
    decreases n
  {
    steps := [];
    if n > 0 {
      var before := EveryWorkerCanLeave(p, n - 1);
      var mid := Run(p, before);
      var last := WorkerCanLeave(mid, n - 1);
      RunConcat(p, before, last);
      steps := before + last;
    }
  }

  /** A job offered to an open pool is taken into the queue exactly when there is room, and goes last. */
  lemma EnqueueAcceptsIff(p: Pool, slots: Option<nat>)
    requires Enabled(p, Enqueue(slots))
    ensures var p' := Apply(p, Enqueue(slots));
            && (|p.queue| < p.cap <==> |p'.accepted| == |p.accepted| + 1)
            && (|p.queue| < p.cap ==> p'.queue == p.queue + [Job(|p.accepted|, slots)] && p'.accepted == p.accepted + [Job(|p.accepted|, slots)])
            && (|p.queue| >= p.cap ==> p' == p)
  {
  }
}
