/** src/composerSend.ts: how each delivery of a composed text comes to its result. */
module ComposerOutcomes {
  import opened Collections
  import opened Utf8
  import opened ComposerDelivery
  import opened ComposerDeliveryRuns

  /** The transport a request was enqueued for is still the connected one. */
  predicate Undisturbed(d: Delivery, n: nat)
    requires n < |d.enqueuedAt|
  {
    d.transport == Connected && d.generation == d.enqueuedAt[n]
  }

  /** Why a request that is reached now may not even begin. */
  predicate Bars(d: Delivery, n: nat, reason: Reason)
    requires n < |d.requests| == |d.enqueuedAt|
  {
    match reason
    case EmptyPayload => |d.requests[n].payload| == 0
    case Disconnected => |d.requests[n].payload| > 0 && (d.transport == Lost || d.transport == Closed)
    case TransportChanged => |d.requests[n].payload| > 0 && d.transport == Connected && d.enqueuedAt[n] != d.generation
  }

  /** Request `n` is the next to begin. */
  predicate IsNext(d: Delivery, n: nat) {
    d.queue != [] && d.queue[0].number == n && !d.queue[0].started
  }

  predicate IsRunning(d: Delivery, n: nat) {
    d.queue != [] && d.queue[0].number == n && d.queue[0].started
  }

  lemma HeadKnows(d: Delivery)
    requires Inv(d) && d.queue != []
    ensures var head := d.queue[0];
            && head.number < |d.requests| == |d.enqueuedAt| && head.number !in d.results && head.request == d.requests[head.number]
            && head.generation == d.enqueuedAt[head.number] && (!head.started ==> head.done == 0)
    ensures 0 < |Plan(d.pasteGap, d.submitDelay, d.queue[0].request)| && Plan(d.pasteGap, d.submitDelay, d.queue[0].request)[0].Write?
  {
    assert JobOk(d.queue[0], d.requests, d.enqueuedAt);
    PlanIsSome(d.pasteGap, d.submitDelay, d.queue[0].request);
    hide OutcomeOk, IdsOk, LogOk, AcksOk, HeadOk;
  }

  /** A request that is reached is not sent, for a reason, exactly if the reason bars it then;
      if none does it begins with its first write. */
  lemma BeginDecides(pasteGap: bool, submitDelay: bool, events: seq<Event>, n: nat, reason: Reason)
    requires IsNext(Run(pasteGap, submitDelay, events), n)
    ensures var d := Run(pasteGap, submitDelay, events);
            var after := Next(d, Starts);
            && n < |d.requests| == |d.enqueuedAt|
            && ((n in after.results && after.results[n] == NotSent(reason)) <==> Bars(d, n, reason))
            && ((forall r :: !Bars(d, n, r)) ==> IsRunning(after, n) && |after.log| == |d.log| + 1 && after.log[|d.log|].job == n)
  {
    RunInv(pasteGap, submitDelay, events);
    var d := Run(pasteGap, submitDelay, events);
    HeadKnows(d);
    hide Run, Inv, Plan;
    assert Bars(d, n, EmptyPayload) || Bars(d, n, Disconnected) || Bars(d, n, TransportChanged)
        || (|d.requests[n].payload| > 0 && Undisturbed(d, n));
  }

  /** The step that settles a request, and what it makes of it. */
  predicate Settles(d: Delivery, e: Event, n: nat, result: Result) {
    && n < |d.requests| == |d.enqueuedAt|
    && match result
       case NotSent(reason) => e == Starts && IsNext(d, n) && Bars(d, n, reason)
       case Uncertain(lost) => e.Settles? && IsRunning(d, n) && lost == !Undisturbed(d, n) && (lost || !e.ok)
       case Delivered => e == Event.Settles(true) && IsRunning(d, n) && Undisturbed(d, n)
  }

  lemma StartSettles(d: Delivery, n: nat)
    requires Inv(d) && n !in d.results && n in Begin(d).results
    ensures Settles(d, Starts, n, Begin(d).results[n])
  {
    hide Inv, Plan;
    if d.queue != [] {
      HeadKnows(d);
    }
  }

  lemma AcknowledgeKeeps(d: Delivery, job: Job)
    ensures Acknowledge(d, job) == d.(acks := Acknowledge(d, job).acks)
  {
    hide Plan;
  }

  lemma AnswerIdle(d: Delivery, ok: bool)
    ensures d.queue == [] || !d.queue[0].started ==> Answered(d, ok) == d
  {
    hide Plan, Perform, Acknowledge, Finish;
  }

  lemma PerformResults(d: Delivery, job: Job)
    requires d.queue != []
    ensures var after := Perform(d, job).results; after == d.results || after == d.results[d.queue[0].number := Delivered]
  {
    hide Plan;
  }

  lemma AnswerResults(d: Delivery, ok: bool)
    requires d.queue != [] && d.queue[0].started
    ensures var head, after := d.queue[0], Answered(d, ok).results;
            if ok && IsCurrent(d, head) then after == d.results || after == d.results[head.number := Delivered]
            else after == d.results[head.number := Uncertain(!IsCurrent(d, head))]
  {
    hide Plan, Perform;
    var head := d.queue[0];
    var heard := if ok then Acknowledge(d, head) else d;
    PerformResults(heard, head.(done := head.done + 1));
    AcknowledgeKeeps(d, head);
    hide Acknowledge;
  }

  lemma AnswerSettles(d: Delivery, ok: bool, n: nat)
    requires Inv(d) && n !in d.results && n in Answered(d, ok).results
    ensures Settles(d, Event.Settles(ok), n, Answered(d, ok).results[n])
  {
    AnswerIdle(d, ok);
    hide Inv, Answered, Plan;
    if d.queue != [] && d.queue[0].started {
      HeadKnows(d);
      AnswerResults(d, ok);
    }
  }

  lemma StepSettles(d: Delivery, e: Event, n: nat)
    requires Inv(d) && n !in d.results && n in Next(d, e).results
    ensures Settles(d, e, n, Next(d, e).results[n])
  {
    hide Inv, Settles, Begin, Answered, Refused;
    match e
    case Starts => StartSettles(d, n);
    case Settles(ok) => AnswerSettles(d, ok, n);
    case _ =>
  }

  /** Every result was given in one step: `not-sent` as the request was reached and barred,
      the others as a write or pause of it ended, with what the transport was at that moment. */
  lemma {:induction false} ResultIsDecided(pasteGap: bool, submitDelay: bool, events: seq<Event>, n: nat) returns (k: nat)
    requires n in Run(pasteGap, submitDelay, events).results
    ensures k < |events| && n !in Run(pasteGap, submitDelay, events[..k]).results
    ensures Settles(Run(pasteGap, submitDelay, events[..k]), events[k], n, Run(pasteGap, submitDelay, events).results[n])
    decreases |events|
  {
    hide Next, Inv, Run, Settles;
    RunStep(pasteGap, submitDelay, events);
    var before := events[..|events| - 1];
    RunInv(pasteGap, submitDelay, before);
    StepDelivers(Run(pasteGap, submitDelay, before), events[|events| - 1], n);
    if n in Run(pasteGap, submitDelay, before).results {
      k := ResultIsDecided(pasteGap, submitDelay, before, n);
      assert before[..k] == events[..k];
    } else {
      k := |before|;
      assert events[..k] == before;
      StepSettles(Run(pasteGap, submitDelay, before), events[|events| - 1], n);
    }
  }

  // ----- which requests are accepted -----

  /** The ids in use are those of the accepted requests. */
  ghost predicate UsedOk(d: Delivery) {
    forall id :: id in d.used <==> exists i :: 0 <= i < |d.requests| && d.requests[i].operationId == id
  }

  lemma NextUsed(d: Delivery, e: Event)
    ensures !e.Enqueue? ==> Next(d, e).used == d.used && Next(d, e).requests == d.requests
    ensures UsedOk(d) ==> UsedOk(Next(d, e))
  {
    hide Plan;
    if e.Enqueue? && Refused(d, e.request).None? {
      var after := Next(d, e);
      assert after.requests[|d.requests|] == e.request && forall i | 0 <= i < |d.requests| :: after.requests[i] == d.requests[i];
    }
  }

  lemma {:induction false} RunUsed(pasteGap: bool, submitDelay: bool, events: seq<Event>)
    ensures UsedOk(Run(pasteGap, submitDelay, events))
  {
    if events != [] {
      hide Next, UsedOk;
      RunUsed(pasteGap, submitDelay, events[..|events| - 1]);
      NextUsed(Run(pasteGap, submitDelay, events[..|events| - 1]), events[|events| - 1]);
    }
    hide Next;
  }

  /** In every run a request is accepted, and waits last in the queue, exactly if it has an id
      that no accepted request had before; otherwise nothing changes. */
  lemma AcceptedExactly(pasteGap: bool, submitDelay: bool, events: seq<Event>, request: Request)
    ensures var d := Run(pasteGap, submitDelay, events);
            var after := Next(d, Enqueue(request));
            if request.operationId != "" && forall i | 0 <= i < |d.requests| :: d.requests[i].operationId != request.operationId
            then && after.requests == d.requests + [request] && after.log == d.log && after.results == d.results
                 && after.queue == d.queue + [Job(|d.requests|, request, d.generation, false, 0)]
            else after == d
  {
    RunUsed(pasteGap, submitDelay, events);
    hide Run;
  }

  // ----- where a plan pauses -----

  function Pauses(actions: seq<Action>): nat {
    if actions == [] then 0 else (if actions[0].Pause? then 1 else 0) + Pauses(actions[1..])
  }

  /** It begins and ends with a write, and never pauses twice in a row. */
  predicate IsPaced(actions: seq<Action>) {
    && actions != [] && actions[0].Write? && actions[|actions| - 1].Write?
    && forall k | 0 < k < |actions| :: actions[k].Pause? ==> actions[k - 1].Write?
  }

  lemma {:induction false} PausesAppend(a: seq<Action>, b: seq<Action>)
    ensures Pauses(a + b) == Pauses(a) + Pauses(b)
  {
    if a == [] {
      assert a + b == b;
    } else {
      PausesAppend(a[1..], b);
      assert (a + b)[1..] == a[1..] + b;
    }
  }

  /** Two paced lists with a pause between them, or without. */
  lemma PacedAppend(a: seq<Action>, pause: bool, b: seq<Action>)
    requires IsPaced(a) && IsPaced(b)
    ensures var all := a + (if pause then [Pause] else []) + b; IsPaced(all) && Pauses(all) == Pauses(a) + (if pause then 1 else 0) + Pauses(b)
  {
    var middle := if pause then [Pause] else [];
    PausesAppend(a, middle);
    PausesAppend(a + middle, b);
    assert pause ==> middle[1..] == [];
    hide Pauses;
  }

  lemma {:induction false} SegmentsPause(segments: seq<Text>, gap: bool)
    requires segments != []
    ensures IsPaced(Segmented(segments, gap)) && Pauses(Segmented(segments, gap)) == if gap then |segments| - 1 else 0
  {
    var first := [Write(segments[0])];
    assert first[1..] == [];
    if |segments| > 1 {
      SegmentsPause(segments[1..], gap);
      PacedAppend(first, gap, Segmented(segments[1..], gap));
    }
  }

  /** With a paste gap a plan pauses between any two segments, with a submit delay before the
      submit key, and nowhere else: it has as many pauses as that, and none at an end or next to
      another. */
  lemma PlanPauses(pasteGap: bool, submitDelay: bool, request: Request)
    ensures var plan := Plan(pasteGap, submitDelay, request);
            && IsPaced(plan)
            && Pauses(plan) == (if pasteGap then |PayloadSegments(request.payload)| - 1 else 0) + (if request.submit && submitDelay then 1 else 0)
            && (request.submit ==> |plan| >= 2 && (plan[|plan| - 2].Pause? <==> submitDelay))
  {
    var segments := PayloadSegments(request.payload);
    assert segments != [];
    var paste, key := Segmented(segments, pasteGap), [Write(SUBMIT_KEY)];
    assert key[1..] == [];
    hide PayloadSegments, Segmented;
    SegmentsPause(segments, pasteGap);
    if request.submit {
      PacedAppend(paste, submitDelay, key);
      assert Plan(pasteGap, submitDelay, request) == paste + (if submitDelay then [Pause] else []) + key;
    } else {
      assert Plan(pasteGap, submitDelay, request) == paste;
    }
  }

  /** The transport the last report named; it is closed before the first. */
  function Reported(events: seq<Event>): Transport {
    if events == [] then Closed
    else
      var last := events[|events| - 1];
      if last.TransportChanges? then last.state else Reported(events[..|events| - 1])
  }

  /** How often the reported transport changed. */
  function Changes(events: seq<Event>): nat {
    if events == [] then 0
    else
      var before := events[..|events| - 1];
      Changes(before) + if Reported(events) == Reported(before) then 0 else 1
  }

  lemma StaysOnTransport(d: Delivery, e: Event)
    requires !e.TransportChanges?
    ensures Next(d, e).transport == d.transport && Next(d, e).generation == d.generation
  {
    hide Plan;
  }

  /** In every run the transport is the one last reported, and its generation counts the changes. */
  lemma {:induction false} TransportIsReported(pasteGap: bool, submitDelay: bool, events: seq<Event>)
    ensures Run(pasteGap, submitDelay, events).transport == Reported(events)
    ensures Run(pasteGap, submitDelay, events).generation == Changes(events)
  {
    if events != [] {
      var before, e := events[..|events| - 1], events[|events| - 1];
      TransportIsReported(pasteGap, submitDelay, before);
      if !e.TransportChanges? {
        StaysOnTransport(Run(pasteGap, submitDelay, before), e);
      }
    }
  }
}
