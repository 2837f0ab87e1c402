/** Every run of the delivery controller of src/composerSend.ts. */
module ComposerDeliveryRuns {
  import opened Collections
  import opened Utf8
  import opened ComposerDelivery

  datatype Event = TransportChanges(state: Transport) | Enqueue(request: Request) | Starts | Settles(ok: bool)

  function Next(d: Delivery, e: Event): Delivery {
    match e
    case TransportChanges(state) => SetTransport(d, state)
    case Enqueue(request) => Deliver(d, request)
    case Starts => Begin(d)
    case Settles(ok) => Answered(d, ok)
  }

  function Run(pasteGap: bool, submitDelay: bool, events: seq<Event>): Delivery {
    if events == [] then Init(pasteGap, submitDelay)
    else Next(Run(pasteGap, submitDelay, events[..|events| - 1]), events[|events| - 1])
  }

  /** What was written for one job, in order. */
  function Written(log: seq<Sent>, job: nat): seq<Text> {
    if log == [] then []
    else
      var last := log[|log| - 1];
      Written(log[..|log| - 1], job) + if last.job == job then [last.text] else []
  }

  /** What was acknowledged of one job, in order. */
  function Acked(acks: seq<Ack>, job: nat): seq<Action> {
    if acks == [] then []
    else
      var last := acks[|acks| - 1];
      Acked(acks[..|acks| - 1], job) + if last.job == job then [last.action] else []
  }

  /** Every action of the job ended on a connected transport of one generation. */
  predicate Clean(acks: seq<Ack>, job: nat, generation: nat) {
    forall k | 0 <= k < |acks| && acks[k].job == job :: acks[k].transport == Connected && acks[k].generation == generation
  }

  // ----- the invariant -----

  predicate JobOk(job: Job, requests: seq<Request>, enqueuedAt: seq<nat>) {
    && job.number < |requests| == |enqueuedAt| && job.request == requests[job.number]
    && job.generation == enqueuedAt[job.number] && (!job.started ==> job.done == 0)
  }

  /** The queue holds the latest requests, and at most its first has started. */
  predicate QueueOk(queue: seq<Job>, requests: seq<Request>, enqueuedAt: seq<nat>) {
    && |queue| <= |requests| == |enqueuedAt|
    && (forall i | 0 <= i < |queue| :: JobOk(queue[i], requests, enqueuedAt))
    && (forall i | 0 <= i < |queue| :: queue[i].number == |requests| - |queue| + i && (queue[i].started ==> i == 0))
  }

  /** No two operations share an id. */
  predicate IdsOk(requests: seq<Request>, used: set<string>) {
    && (forall i | 0 <= i < |requests| :: requests[i].operationId in used && requests[i].operationId != "")
    && (forall i, j | 0 <= i < j < |requests| :: requests[i].operationId != requests[j].operationId)
  }

  /** Jobs are written one after the other, in the generation they were enqueued in; nothing
      was written yet for those that wait. */
  predicate LogOk(log: seq<Sent>, queue: seq<Job>, enqueuedAt: seq<nat>) {
    && (forall k | 0 <= k < |log| :: log[k].job < |enqueuedAt| && log[k].generation == enqueuedAt[log[k].job])
    && (forall k, l | 0 <= k < l < |log| :: log[k].job <= log[l].job)
    && (forall k | 0 <= k < |log| && queue != [] ::
          log[k].job < queue[0].number || (queue[0].started && log[k].job == queue[0].number))
    && (forall k | 0 <= k < |log| && |queue| > 1 :: log[k].job < queue[1].number)
  }

  /** Nothing was acknowledged yet for the jobs that wait. */
  predicate AcksOk(acks: seq<Ack>, queue: seq<Job>, enqueuedAt: seq<nat>) {
    && (forall k | 0 <= k < |acks| :: acks[k].job < |enqueuedAt|)
    && (forall k | 0 <= k < |acks| && queue != [] ::
          acks[k].job < queue[0].number || (queue[0].started && acks[k].job == queue[0].number))
    && (forall k | 0 <= k < |acks| && |queue| > 1 :: acks[k].job < queue[1].number)
  }

  /** The running job has written what its plan says so far, all but the last of it is
      acknowledged, and it waits for that. */
  predicate HeadOk(queue: seq<Job>, log: seq<Sent>, acks: seq<Ack>, pasteGap: bool, submitDelay: bool) {
    queue != [] && queue[0].started ==>
      var plan := Plan(pasteGap, submitDelay, queue[0].request);
      && queue[0].done < |plan| && Written(log, queue[0].number) == Texts(plan[..queue[0].done + 1])
      && Acked(acks, queue[0].number) == plan[..queue[0].done] && Clean(acks, queue[0].number, queue[0].generation)
  }

  /** What a result says of the writes and of what was acknowledged. */
  ghost predicate ResultOk(plan: seq<Action>, written: seq<Text>, acked: seq<Action>, clean: bool, result: Result) {
    && (result.Delivered? <==> acked == plan && clean)
    && match result
       case Delivered => written == Texts(plan)
       case NotSent(_) => written == []
       case Uncertain(_) => exists k :: 0 < k <= |plan| && written == Texts(plan[..k])
  }

  ghost predicate OutcomeOk(request: Request, generation: nat, log: seq<Sent>, acks: seq<Ack>, gaps: (bool, bool), n: nat, result: Result) {
    ResultOk(Plan(gaps.0, gaps.1, request), Written(log, n), Acked(acks, n), Clean(acks, n, generation), result)
  }

  /** A request has a result exactly when it has left the queue. */
  ghost predicate ResultsOk(results: map<nat, Result>, settled: int, requests: seq<Request>, enqueuedAt: seq<nat>, log: seq<Sent>,
                            acks: seq<Ack>, gaps: (bool, bool))
    requires settled <= |requests| == |enqueuedAt|
  {
    && (forall n: nat :: n in results <==> n < settled)
    && (forall n | n in results :: OutcomeOk(requests[n], enqueuedAt[n], log, acks, gaps, n, results[n]))
  }

  /** All but the running job. */
  ghost predicate Settled(d: Delivery) {
    && QueueOk(d.queue, d.requests, d.enqueuedAt) && IdsOk(d.requests, d.used) && LogOk(d.log, d.queue, d.enqueuedAt)
    && AcksOk(d.acks, d.queue, d.enqueuedAt)
    && ResultsOk(d.results, |d.requests| - |d.queue|, d.requests, d.enqueuedAt, d.log, d.acks, (d.pasteGap, d.submitDelay))
  }

  ghost predicate Inv(d: Delivery) {
    Settled(d) && HeadOk(d.queue, d.log, d.acks, d.pasteGap, d.submitDelay)
  }

  // ----- every step keeps it -----

  lemma {:induction false} NothingWritten(log: seq<Sent>, job: nat)
    requires forall k | 0 <= k < |log| :: log[k].job != job
    ensures Written(log, job) == []
  {
    if log != [] {
      NothingWritten(log[..|log| - 1], job);
    }
  }

  lemma WrittenMore(log: seq<Sent>, sent: Sent, job: nat)
    ensures Written(log + [sent], job) == Written(log, job) + if sent.job == job then [sent.text] else []
  {
    assert (log + [sent])[..|log|] == log;
  }

  lemma TextsMore(plan: seq<Action>, k: nat)
    requires k < |plan|
    ensures Texts(plan[..k + 1]) == Texts(plan[..k]) + if plan[k].Write? then [plan[k].text] else []
  {
    assert plan[..k + 1][..k] == plan[..k];
  }

  lemma {:induction false} NothingAcked(acks: seq<Ack>, job: nat)
    requires forall k | 0 <= k < |acks| :: acks[k].job != job
    ensures Acked(acks, job) == []
  {
    if acks != [] {
      NothingAcked(acks[..|acks| - 1], job);
    }
  }

  lemma AckedMore(acks: seq<Ack>, ack: Ack, job: nat, generation: nat)
    ensures Acked(acks + [ack], job) == Acked(acks, job) + if ack.job == job then [ack.action] else []
    ensures Clean(acks + [ack], job, generation)
       <==> Clean(acks, job, generation) && (ack.job == job ==> ack.transport == Connected && ack.generation == generation)
  {
    var more := acks + [ack];
    assert more[..|acks|] == acks && more[|acks|] == ack;
    assert forall k | 0 <= k < |acks| :: more[k] == acks[k];
  }

  lemma ResultsMore(results: map<nat, Result>, settled: nat, requests: seq<Request>, enqueuedAt: seq<nat>, log: seq<Sent>,
                    acks: seq<Ack>, gaps: (bool, bool), result: Result)
    requires settled < |requests| == |enqueuedAt| && ResultsOk(results, settled, requests, enqueuedAt, log, acks, gaps)
    requires OutcomeOk(requests[settled], enqueuedAt[settled], log, acks, gaps, settled, result)
    ensures ResultsOk(results[settled := result], settled + 1, requests, enqueuedAt, log, acks, gaps)
  {
    hide OutcomeOk;
  }

  /** The first job of the queue leaves it with a result that is true of it. */
  lemma FinishInv(d: Delivery, result: Result)
    requires Settled(d) && d.queue != [] && JobOk(d.queue[0], d.requests, d.enqueuedAt)
    requires OutcomeOk(d.queue[0].request, d.queue[0].generation, d.log, d.acks, (d.pasteGap, d.submitDelay), d.queue[0].number, result)
    ensures Inv(Finish(d, result))
  {
    hide OutcomeOk, QueueOk, IdsOk, LogOk, AcksOk, HeadOk, ResultsOk;
    Dequeued(d);
    ResultsMore(d.results, d.queue[0].number, d.requests, d.enqueuedAt, d.log, d.acks, (d.pasteGap, d.submitDelay), result);
  }

  lemma Dequeued(d: Delivery)
    requires Settled(d) && d.queue != []
    ensures QueueOk(d.queue[1..], d.requests, d.enqueuedAt) && LogOk(d.log, d.queue[1..], d.enqueuedAt)
    ensures AcksOk(d.acks, d.queue[1..], d.enqueuedAt) && HeadOk(d.queue[1..], d.log, d.acks, d.pasteGap, d.submitDelay)
    ensures d.queue[0].number == |d.requests| - |d.queue|
  {
    hide ResultsOk, Plan, Written, Acked;
    assert forall i | 0 <= i < |d.queue[1..]| :: d.queue[1..][i] == d.queue[i + 1];
  }

  /** The first job is waiting to start, or has just had one more action acknowledged. */
  predicate Ready(d: Delivery, job: Job) {
    && d.queue != [] && job == d.queue[0].(done := job.done) && d.generation == job.generation
    && job.done <= |Plan(d.pasteGap, d.submitDelay, job.request)|
    && Written(d.log, job.number) == Texts(Plan(d.pasteGap, d.submitDelay, job.request)[..job.done])
    && Acked(d.acks, job.number) == Plan(d.pasteGap, d.submitDelay, job.request)[..job.done]
    && Clean(d.acks, job.number, job.generation)
  }

  /** Other results stay true when the running job writes or is acknowledged. */
  lemma OthersStay(d: Delivery, log: seq<Sent>, acks: seq<Ack>)
    requires Settled(d) && d.queue != []
    requires log == d.log || exists sent: Sent :: log == d.log + [sent] && sent.job == d.queue[0].number
    requires acks == d.acks || exists ack: Ack :: acks == d.acks + [ack] && ack.job == d.queue[0].number
    ensures ResultsOk(d.results, |d.requests| - |d.queue|, d.requests, d.enqueuedAt, log, acks, (d.pasteGap, d.submitDelay))
  {
    Dequeued(d);
    hide ResultOk, Plan, Texts, QueueOk, LogOk, AcksOk;
    forall n | n in d.results
      ensures OutcomeOk(d.requests[n], d.enqueuedAt[n], log, acks, (d.pasteGap, d.submitDelay), n, d.results[n])
    {
      assert OutcomeOk(d.requests[n], d.enqueuedAt[n], d.log, d.acks, (d.pasteGap, d.submitDelay), n, d.results[n]);
      if log != d.log {
        var sent: Sent :| log == d.log + [sent] && sent.job == d.queue[0].number;
        WrittenMore(d.log, sent, n);
      }
      if acks != d.acks {
        var ack: Ack :| acks == d.acks + [ack] && ack.job == d.queue[0].number;
        AckedMore(d.acks, ack, n, d.enqueuedAt[n]);
      }
      hide Written, Acked, Clean;
    }
  }

  /** The first job waits for its next action; what it writes comes in order. */
  lemma StartedOk(d: Delivery, job: Job, text: Text)
    requires Settled(d) && d.queue != [] && job == d.queue[0].(done := job.done) && d.generation == job.generation
    ensures var queue := [job.(started := true)] + d.queue[1..];
            && QueueOk(queue, d.requests, d.enqueuedAt) && AcksOk(d.acks, queue, d.enqueuedAt) && LogOk(d.log, queue, d.enqueuedAt)
            && LogOk(d.log + [Sent(job.number, text, d.generation)], queue, d.enqueuedAt) && |queue| == |d.queue|
  {
    hide ResultsOk, IdsOk;
    assert JobOk(d.queue[0], d.requests, d.enqueuedAt);
  }

  /** The job's next write. */
  lemma WriteInv(d: Delivery, job: Job, text: Text)
    requires Settled(d) && Ready(d, job)
    ensures Settled(d.(queue := [job.(started := true)] + d.queue[1..], log := d.log + [Sent(job.number, text, d.generation)]))
  {
    hide ResultsOk, QueueOk, IdsOk, LogOk, AcksOk, Plan, Texts, Written, Acked, Clean;
    StartedOk(d, job, text);
    OthersStay(d, d.log + [Sent(job.number, text, d.generation)], d.acks);
  }

  lemma PauseInv(d: Delivery, job: Job)
    requires Settled(d) && Ready(d, job)
    ensures Settled(d.(queue := [job.(started := true)] + d.queue[1..]))
  {
    hide ResultsOk, QueueOk, IdsOk, LogOk, AcksOk, Plan, Texts, Written, Acked, Clean;
    StartedOk(d, job, []);
  }

  lemma PerformInv(d: Delivery, job: Job)
    requires Settled(d) && Ready(d, job) && JobOk(d.queue[0], d.requests, d.enqueuedAt)
    ensures Inv(Perform(d, job))
  {
    hide Settled, Written, Acked, Clean, Plan, Texts;
    var plan := Plan(d.pasteGap, d.submitDelay, job.request);
    if job.done >= |plan| {
      assert plan[..job.done] == plan;
      FinishInv(d, Delivered);
    } else {
      TextsMore(plan, job.done);
      if plan[job.done].Write? {
        WrittenMore(d.log, Sent(job.number, plan[job.done].text, d.generation), job.number);
        WriteInv(d, job, plan[job.done].text);
      } else {
        PauseInv(d, job);
      }
      WithHead(Perform(d, job));
    }
  }

  lemma WithHead(d: Delivery)
    requires Settled(d) && HeadOk(d.queue, d.log, d.acks, d.pasteGap, d.submitDelay)
    ensures Inv(d)
  {
  }

  lemma PlanIsSome(pasteGap: bool, submitDelay: bool, request: Request)
    ensures Plan(pasteGap, submitDelay, request) != []
  {
  }

  /** A job that waits to start has left no trace. */
  lemma WaitingHead(d: Delivery)
    requires Inv(d) && d.queue != [] && !d.queue[0].started
    ensures var job := d.queue[0];
            && Settled(d) && JobOk(job, d.requests, d.enqueuedAt) && job.done == 0
            && Written(d.log, job.number) == [] && Acked(d.acks, job.number) == [] && Clean(d.acks, job.number, job.generation)
  {
    var job := d.queue[0];
    hide HeadOk, ResultsOk, IdsOk;
    assert JobOk(job, d.requests, d.enqueuedAt);
    NothingWritten(d.log, job.number);
    NothingAcked(d.acks, job.number);
  }

  lemma BeginInv(d: Delivery)
    requires Inv(d)
    ensures Inv(Begin(d))
  {
    if d.queue != [] && !d.queue[0].started {
      var job := d.queue[0];
      WaitingHead(d);
      PlanIsSome(d.pasteGap, d.submitDelay, job.request);
      hide Inv, Settled, JobOk, Plan, Written, Acked, Clean, Finish, Perform;
      if job.request.payload == [] {
        FinishInv(d, NotSent(EmptyPayload));
      } else if d.transport != Connected {
        FinishInv(d, NotSent(Disconnected));
      } else if d.generation != job.generation {
        FinishInv(d, NotSent(TransportChanged));
      } else {
        PerformInv(d, job);
      }
    }
  }

  /** A job that runs waits for an action of its plan; all before it was acknowledged. */
  lemma RunningHead(d: Delivery)
    requires Inv(d) && d.queue != [] && d.queue[0].started
    ensures var job := d.queue[0];
            var plan := Plan(d.pasteGap, d.submitDelay, job.request);
            && Settled(d) && JobOk(job, d.requests, d.enqueuedAt) && job.done < |plan|
            && Acked(d.acks, job.number) == plan[..job.done] && Clean(d.acks, job.number, job.generation)
  {
    hide ResultsOk, IdsOk, LogOk, AcksOk, Plan, Texts, Written, Acked, Clean;
    assert JobOk(d.queue[0], d.requests, d.enqueuedAt);
  }

  /** What the running job waits for has ended well. */
  lemma AcknowledgeInv(d: Delivery)
    requires Inv(d) && d.queue != [] && d.queue[0].started
    ensures var job, e := d.queue[0], Acknowledge(d, d.queue[0]);
            var plan := Plan(d.pasteGap, d.submitDelay, job.request);
            && Settled(e) && JobOk(job, d.requests, d.enqueuedAt) && job.done < |plan|
            && Acked(e.acks, job.number) == plan[..job.done + 1]
            && (Clean(e.acks, job.number, job.generation) <==> IsCurrent(d, job))
            && Acked(d.acks, job.number) == plan[..job.done]
  {
    RunningHead(d);
    var job := d.queue[0];
    var plan := Plan(d.pasteGap, d.submitDelay, job.request);
    var ack := Ack(job.number, plan[job.done], d.transport, d.generation);
    hide Inv, Settled, JobOk, Plan, Acked, Clean;
    AckRecorded(d.acks, ack, plan, job.done, job.generation);
    AckSettled(d, ack);
    assert Acknowledge(d, job) == d.(acks := d.acks + [ack]);
    hide Acknowledge;
  }

  lemma AckRecorded(acks: seq<Ack>, ack: Ack, plan: seq<Action>, done: nat, generation: nat)
    requires done < |plan| && ack.action == plan[done] && Acked(acks, ack.job) == plan[..done] && Clean(acks, ack.job, generation)
    ensures Acked(acks + [ack], ack.job) == plan[..done + 1]
    ensures Clean(acks + [ack], ack.job, generation) <==> ack.transport == Connected && ack.generation == generation
  {
    AckedMore(acks, ack, ack.job, generation);
    hide Acked, Clean;
    assert plan[..done + 1] == plan[..done] + [plan[done]];
  }

  lemma AckSettled(d: Delivery, ack: Ack)
    requires Settled(d) && d.queue != [] && d.queue[0].started && ack.job == d.queue[0].number
    ensures Settled(d.(acks := d.acks + [ack]))
  {
    hide ResultsOk, AcksOk, QueueOk, LogOk, IdsOk;
    OthersStay(d, d.log, d.acks + [ack]);
    AckInOrder(d, ack);
  }

  lemma AckInOrder(d: Delivery, ack: Ack)
    requires Settled(d) && d.queue != [] && d.queue[0].started && ack.job == d.queue[0].number
    ensures AcksOk(d.acks + [ack], d.queue, d.enqueuedAt)
  {
    Dequeued(d);
    hide ResultsOk, IdsOk, LogOk;
    assert JobOk(d.queue[0], d.requests, d.enqueuedAt);
  }

  lemma AnsweredInv(d: Delivery, ok: bool)
    requires Inv(d)
    ensures Inv(Answered(d, ok))
  {
    if d.queue != [] && d.queue[0].started {
      var job := d.queue[0];
      AcknowledgeInv(d);
      hide Plan, Written, Acked, Settled, Clean;
      var heard := if ok then Acknowledge(d, job) else d;
      if !ok || !IsCurrent(d, job) {
        FinishInv(heard, Uncertain(!IsCurrent(d, job)));
      } else {
        PerformInv(heard, job.(done := job.done + 1));
      }
    }
  }

  lemma Enqueued(d: Delivery, request: Request, job: Job)
    requires Inv(d) && job == Job(|d.requests|, request, d.generation, false, 0)
    requires request.operationId != "" && request.operationId !in d.used
    ensures QueueOk(d.queue + [job], d.requests + [request], d.enqueuedAt + [d.generation])
    ensures IdsOk(d.requests + [request], d.used + {request.operationId})
    ensures LogOk(d.log, d.queue + [job], d.enqueuedAt + [d.generation])
    ensures AcksOk(d.acks, d.queue + [job], d.enqueuedAt + [d.generation])
  {
    hide HeadOk, ResultsOk;
    assert forall i | 0 <= i < |d.queue| :: JobOk(d.queue[i], d.requests, d.enqueuedAt);
  }

  lemma Lengths(d: Delivery)
    requires Inv(d)
    ensures |d.queue| <= |d.requests| == |d.enqueuedAt|
  {
  }

  lemma SameHead(d: Delivery, request: Request)
    requires Inv(d) && Refused(d, request).None?
    ensures var e := Deliver(d, request); HeadOk(e.queue, e.log, e.acks, e.pasteGap, e.submitDelay)
  {
    hide Plan, Written, Acked, Clean, Texts;
  }

  lemma EnqueueInv(d: Delivery, request: Request)
    requires Inv(d)
    ensures Inv(Deliver(d, request))
  {
    hide QueueOk, IdsOk, LogOk, AcksOk, Plan, Written, Acked, Clean, Texts, ResultOk;
    Lengths(d);
    if Refused(d, request).None? {
      Enqueued(d, request, Job(|d.requests|, request, d.generation, false, 0));
      hide OutcomeOk, HeadOk;
      SameHead(d, request);
    }
  }

  lemma TransportInv(d: Delivery, state: Transport)
    requires Inv(d)
    ensures Inv(SetTransport(d, state))
  {
    hide QueueOk, IdsOk, LogOk, AcksOk, HeadOk, OutcomeOk;
    Lengths(d);
  }

  lemma {:induction false} RunInv(pasteGap: bool, submitDelay: bool, events: seq<Event>)
    ensures Inv(Run(pasteGap, submitDelay, events))
  {
    if events != [] {
      var before, e := Run(pasteGap, submitDelay, events[..|events| - 1]), events[|events| - 1];
      RunInv(pasteGap, submitDelay, events[..|events| - 1]);
      match e
      case TransportChanges(state) => TransportInv(before, state);
      case Enqueue(request) => EnqueueInv(before, request);
      case Starts => BeginInv(before);
      case Settles(ok) => AnsweredInv(before, ok);
    }
  }

  // ----- what it means -----

  /** The writes of different operations never interleave and come in call order, all of an
      operation's in the transport generation it was enqueued in. */
  lemma NeverInterleaved(pasteGap: bool, submitDelay: bool, events: seq<Event>, k: nat, l: nat)
    requires k < l < |Run(pasteGap, submitDelay, events).log|
    ensures var d := Run(pasteGap, submitDelay, events);
            && d.log[k].job <= d.log[l].job
            && d.log[k].job < |d.requests| == |d.enqueuedAt| && d.log[k].generation == d.enqueuedAt[d.log[k].job]
            && (d.log[k].job == d.log[l].job ==> d.log[k].generation == d.log[l].generation)
  {
    RunInv(pasteGap, submitDelay, events);
  }

  /** An operation id is delivered at most once: no two accepted requests share one. */
  lemma IdsAreOnce(pasteGap: bool, submitDelay: bool, events: seq<Event>, i: nat, j: nat)
    requires i < |Run(pasteGap, submitDelay, events).requests| && j < |Run(pasteGap, submitDelay, events).requests|
    ensures var requests := Run(pasteGap, submitDelay, events).requests;
            requests[i].operationId == requests[j].operationId ==> i == j
  {
    RunInv(pasteGap, submitDelay, events);
  }

  function Expected(request: Request): seq<Text> {
    PayloadSegments(request.payload) + if request.submit then [SUBMIT_KEY] else []
  }

  lemma TextsAppend(a: seq<Action>, b: seq<Action>)
    ensures Texts(a + b) == Texts(a) + Texts(b)
    decreases |b|
  {
    if b == [] {
      assert a + b == a;
    } else {
      assert (a + b)[..|a| + |b| - 1] == a + b[..|b| - 1];
      TextsAppend(a, b[..|b| - 1]);
    }
  }

  lemma TextsOfSegments(segments: seq<Text>, gap: bool)
    ensures Texts(Segmented(segments, gap)) == segments
  {
    if |segments| >= 1 {
      TextsOne(segments[0]);
      if |segments| > 1 {
        TextsOfSegments(segments[1..], gap);
        TextsAppend([Write(segments[0])] + (if gap then [Pause] else []), Segmented(segments[1..], gap));
        TextsAppend([Write(segments[0])], if gap then [Pause] else []);
        TextsPause();
      }
    }
  }

  lemma TextsOne(text: Text)
    ensures Texts([Write(text)]) == [text]
  {
    assert [Write(text)][..0] == [];
  }

  lemma TextsPause()
    ensures Texts([Pause]) == []
  {
    assert [Pause][..0] == [];
  }

  /** A plan writes the payload segments, then the submit key when submitting. */
  lemma PlanWrites(pasteGap: bool, submitDelay: bool, request: Request)
    ensures Texts(Plan(pasteGap, submitDelay, request)) == Expected(request)
  {
    var segments := Segmented(PayloadSegments(request.payload), pasteGap);
    var pause: seq<Action> := if submitDelay then [Pause] else [];
    TextsOfSegments(PayloadSegments(request.payload), pasteGap);
    if request.submit {
      TextsAppend(segments, pause + [Write(SUBMIT_KEY)]);
      TextsAppend(pause, [Write(SUBMIT_KEY)]);
      TextsPause();
      TextsOne(SUBMIT_KEY);
    } else {
      TextsAppend(segments, []);
    }
  }

  lemma {:induction false} SettingsKept(pasteGap: bool, submitDelay: bool, events: seq<Event>)
    ensures Run(pasteGap, submitDelay, events).pasteGap == pasteGap && Run(pasteGap, submitDelay, events).submitDelay == submitDelay
  {
    if events != [] {
      hide Plan, Perform, Finish;
      SettingsKept(pasteGap, submitDelay, events[..|events| - 1]);
    }
  }

  /** `delivered`, the one result that clears the draft, means exactly that every write and
      pause of the plan was acknowledged, all on the connected transport the request was
      enqueued on; then the segments and the submit key were written, in order. `not-sent`
      means nothing was written, `uncertain` that something was. */
  lemma ResultsAreHonest(pasteGap: bool, submitDelay: bool, events: seq<Event>, n: nat)
    requires n in Run(pasteGap, submitDelay, events).results
    ensures var d := Run(pasteGap, submitDelay, events);
            && n < |d.requests| == |d.enqueuedAt|
            && (ClearsDraft(d.results[n]) <==>
                  Acked(d.acks, n) == Plan(pasteGap, submitDelay, d.requests[n]) && Clean(d.acks, n, d.enqueuedAt[n]))
            && (ClearsDraft(d.results[n]) ==> Written(d.log, n) == Expected(d.requests[n]))
            && (d.results[n].NotSent? ==> Written(d.log, n) == [])
            && (d.results[n].Uncertain? ==> Written(d.log, n) != [])
  {
    RunInv(pasteGap, submitDelay, events);
    var d := Run(pasteGap, submitDelay, events);
    SettingsKept(pasteGap, submitDelay, events);
    PlanWrites(pasteGap, submitDelay, d.requests[n]);
    assert OutcomeOk(d.requests[n], d.enqueuedAt[n], d.log, d.acks, (pasteGap, submitDelay), n, d.results[n]);
    if d.results[n].Uncertain? {
      FirstIsWritten(pasteGap, submitDelay, d.requests[n]);
    }
  }

  // ----- no transport change in between -----

  lemma NextMoves(d: Delivery, e: Event)
    ensures d.generation <= Next(d, e).generation
    ensures d.generation == Next(d, e).generation ==> d.transport == Next(d, e).transport
    ensures |d.requests| <= |Next(d, e).requests| <= |d.requests| + 1
    ensures |d.requests| < |Next(d, e).requests| ==> Next(d, e).enqueuedAt == d.enqueuedAt + [d.generation]
    ensures |d.requests| == |Next(d, e).requests| ==> Next(d, e).enqueuedAt == d.enqueuedAt
  {
    hide Plan, IsCurrent, Refused;
    match e
    case TransportChanges(_) =>
    case Enqueue(_) =>
    case Starts =>
    case Settles(_) =>
  }

  /** Between two moments of one generation the transport was the same throughout. */
  lemma {:induction false} SteadyBetween(pasteGap: bool, submitDelay: bool, events: seq<Event>, j: nat)
    requires j <= |events|
    ensures Run(pasteGap, submitDelay, events[..j]).generation <= Run(pasteGap, submitDelay, events).generation
    ensures |Run(pasteGap, submitDelay, events[..j]).requests| <= |Run(pasteGap, submitDelay, events).requests|
    ensures Run(pasteGap, submitDelay, events[..j]).generation == Run(pasteGap, submitDelay, events).generation ==>
              Run(pasteGap, submitDelay, events[..j]).transport == Run(pasteGap, submitDelay, events).transport
  {
    hide Next;
    if j == |events| {
      assert events[..j] == events;
    } else {
      var before := events[..|events| - 1];
      assert before[..j] == events[..j];
      SteadyBetween(pasteGap, submitDelay, before, j);
      NextMoves(Run(pasteGap, submitDelay, before), events[|events| - 1]);
    }
  }

  lemma RunStep(pasteGap: bool, submitDelay: bool, events: seq<Event>)
    ensures events != [] ==>
              Run(pasteGap, submitDelay, events) == Next(Run(pasteGap, submitDelay, events[..|events| - 1]), events[|events| - 1])
    ensures events == [] ==> Run(pasteGap, submitDelay, events) == Init(pasteGap, submitDelay)
  {
  }

  /** Every request was enqueued at some moment, in the generation noted for it. */
  lemma {:induction false} EnqueuedThen(pasteGap: bool, submitDelay: bool, events: seq<Event>, n: nat) returns (i: nat)
    requires n < |Run(pasteGap, submitDelay, events).requests|
    ensures i < |events| && |Run(pasteGap, submitDelay, events[..i]).requests| == n
    ensures |Run(pasteGap, submitDelay, events[..i + 1]).requests| == n + 1
    ensures |Run(pasteGap, submitDelay, events).enqueuedAt| == |Run(pasteGap, submitDelay, events).requests|
    ensures Run(pasteGap, submitDelay, events).enqueuedAt[n] == Run(pasteGap, submitDelay, events[..i]).generation
  {
    hide Next, Inv, Run;
    RunStep(pasteGap, submitDelay, events);
    RunInv(pasteGap, submitDelay, events);
    Lengths(Run(pasteGap, submitDelay, events));
    var before := events[..|events| - 1];
    RunInv(pasteGap, submitDelay, before);
    Lengths(Run(pasteGap, submitDelay, before));
    NextMoves(Run(pasteGap, submitDelay, before), events[|events| - 1]);
    if n < |Run(pasteGap, submitDelay, before).requests| {
      i := EnqueuedThen(pasteGap, submitDelay, before, n);
      assert before[..i] == events[..i] && before[..i + 1] == events[..i + 1];
    } else {
      i := |before|;
      assert events[..i + 1] == events;
    }
  }

  lemma FinishKeeps(d: Delivery, n: nat)
    requires Inv(d) && d.queue != []
    ensures d.queue[0].number !in d.results && d.queue[0].number < |d.requests| == |d.enqueuedAt|
    ensures d.enqueuedAt[d.queue[0].number] == d.queue[0].generation
    ensures n in d.results ==> n != d.queue[0].number
  {
    assert JobOk(d.queue[0], d.requests, d.enqueuedAt);
    hide OutcomeOk, IdsOk, LogOk, AcksOk, HeadOk;
  }

  lemma StepDelivers(d: Delivery, e: Event, n: nat)
    requires Inv(d)
    ensures n in d.results ==> n in Next(d, e).results && Next(d, e).results[n] == d.results[n]
    ensures n !in d.results && n in Next(d, e).results && Next(d, e).results[n] == Delivered ==>
              n < |d.requests| == |d.enqueuedAt| && d.transport == Connected && d.generation == d.enqueuedAt[n]
  {
    hide Plan, Inv;
    if d.queue != [] {
      FinishKeeps(d, n);
      PlanIsSome(d.pasteGap, d.submitDelay, d.queue[0].request);
      UnstartedIsFresh(d);
    }
  }

  lemma UnstartedIsFresh(d: Delivery)
    requires Inv(d) && d.queue != []
    ensures !d.queue[0].started ==> d.queue[0].done == 0
  {
    assert JobOk(d.queue[0], d.requests, d.enqueuedAt);
  }

  /** All the while between two moments of one generation. */
  lemma SteadyAt(pasteGap: bool, submitDelay: bool, events: seq<Event>, i: nat, j: nat)
    requires i <= j <= |events|
    requires Run(pasteGap, submitDelay, events[..i]).generation == Run(pasteGap, submitDelay, events).generation
    ensures Run(pasteGap, submitDelay, events[..j]).transport == Run(pasteGap, submitDelay, events).transport
    ensures Run(pasteGap, submitDelay, events[..j]).generation == Run(pasteGap, submitDelay, events).generation
  {
    SteadyBetween(pasteGap, submitDelay, events, j);
    SteadyBetween(pasteGap, submitDelay, events[..j], i);
    assert events[..j][..i] == events[..i];
  }

  /** From its enqueueing to its last acknowledgement a delivered request saw one connected
      transport: no change of its state came in between. */
  lemma {:induction false} DeliveredUndisturbed(pasteGap: bool, submitDelay: bool, events: seq<Event>, n: nat) returns (i: nat, k: nat)
    requires n in Run(pasteGap, submitDelay, events).results && Run(pasteGap, submitDelay, events).results[n] == Delivered
    ensures i < k < |events| && |Run(pasteGap, submitDelay, events[..i]).requests| == n < |Run(pasteGap, submitDelay, events[..i + 1]).requests|
    ensures n !in Run(pasteGap, submitDelay, events[..k]).results && n in Run(pasteGap, submitDelay, events[..k + 1]).results
    ensures forall j | i <= j <= k ::
              && Run(pasteGap, submitDelay, events[..j]).transport == Connected
              && Run(pasteGap, submitDelay, events[..j]).generation == Run(pasteGap, submitDelay, events[..i]).generation
    decreases |events|
  {
    hide Next, Inv, Run;
    RunStep(pasteGap, submitDelay, events);
    var before := events[..|events| - 1];
    RunInv(pasteGap, submitDelay, before);
    StepDelivers(Run(pasteGap, submitDelay, before), events[|events| - 1], n);
    assert forall j | 0 <= j <= |before| :: before[..j] == events[..j];
    if n in Run(pasteGap, submitDelay, before).results {
      i, k := DeliveredUndisturbed(pasteGap, submitDelay, before, n);
    } else {
      k := |before|;
      assert events[..k] == before && events[..k + 1] == events;
      i := EnqueuedThen(pasteGap, submitDelay, before, n);
      forall j | i <= j <= k
        ensures Run(pasteGap, submitDelay, events[..j]).transport == Connected
        ensures Run(pasteGap, submitDelay, events[..j]).generation == Run(pasteGap, submitDelay, events[..i]).generation
      {
        SteadyAt(pasteGap, submitDelay, before, i, j);
      }
    }
  }

  lemma FirstIsWritten(pasteGap: bool, submitDelay: bool, request: Request)
    ensures var plan := Plan(pasteGap, submitDelay, request); forall k | 0 < k <= |plan| :: Texts(plan[..k]) != []
  {
    var plan := Plan(pasteGap, submitDelay, request);
    assert plan[0].Write?;
    forall k | 0 < k <= |plan|
      ensures Texts(plan[..k]) != []
    {
      assert plan[..k] == plan[..1] + plan[1..k] && plan[..1] == [plan[0]];
      TextsAppend(plan[..1], plan[1..k]);
      TextsOne(plan[0].text);
    }
  }

  lemma {:induction false} EncodeAllAppend(a: seq<Text>, b: seq<Text>)
    ensures EncodeAll(a + b) == EncodeAll(a) + EncodeAll(b)
  {
    hide EncodeText;
    if a == [] {
      assert a + b == b;
    } else {
      assert (a + b)[1..] == a[1..] + b;
      EncodeAllAppend(a[1..], b);
    }
  }

  /** The bytes of a delivered request are the encoded frame of its payload, followed by the
      submit key when submitting. */
  lemma DeliveredBytes(pasteGap: bool, submitDelay: bool, events: seq<Event>, n: nat)
    requires n in Run(pasteGap, submitDelay, events).results && Run(pasteGap, submitDelay, events).results[n].Delivered?
    ensures var d := Run(pasteGap, submitDelay, events);
            && n < |d.requests|
            && EncodeAll(Written(d.log, n))
                 == EncodeText(FrameForPaste(d.requests[n].payload)) + if d.requests[n].submit then EncodeText(SUBMIT_KEY) else []
  {
    hide EncodeAll, EncodeText, PayloadSegments, FrameForPaste, Written;
    ResultsAreHonest(pasteGap, submitDelay, events, n);
    var request := Run(pasteGap, submitDelay, events).requests[n];
    var segments := PayloadSegments(request.payload);
    assert segments + [] == segments;
    SegmentsMakeFrame(request.payload);
    EncodeAllAppend(segments, [SUBMIT_KEY]);
    EncodeOne(SUBMIT_KEY);
  }
}
