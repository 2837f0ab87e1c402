/** src/composerSend.ts:292-451: serial delivery of composed texts to one PTY. */
module ComposerDelivery {
  import opened Collections
  import opened Utf8

  datatype Transport = Connected | Lost | Closed

  datatype Request = Request(operationId: string, payload: Text, submit: bool)

  datatype Action = Write(text: Text) | Pause

  /** One enqueued request, with the transport generation of its enqueueing. `done` actions
      were acknowledged; a started job waits for the next one. */
  datatype Job = Job(number: nat, request: Request, generation: nat, started: bool, done: nat)

  datatype Reason = EmptyPayload | Disconnected | TransportChanged

  datatype Result = Delivered | NotSent(reason: Reason) | Uncertain(transportLost: bool)

  datatype Refusal = InvalidOperationId | OperationIdReused

  /** One write handed to the PTY, in some transport generation. */
  datatype Sent = Sent(job: nat, text: Text, generation: nat)

  /** One write or pause that ended well, with the transport it ended under. */
  datatype Ack = Ack(job: nat, action: Action, transport: Transport, generation: nat)

  datatype Delivery = Delivery(
    transport: Transport, generation: nat, pasteGap: bool, submitDelay: bool,
    used: set<string>, queue: seq<Job>, requests: seq<Request>, enqueuedAt: seq<nat>, log: seq<Sent>, acks: seq<Ack>,
    results: map<nat, Result>)

  function Init(pasteGap: bool, submitDelay: bool): Delivery {
    Delivery(Closed, 0, pasteGap, submitDelay, {}, [], [], [], [], [], map[])
  }

  // ----- what one request does -----

  function Segmented(segments: seq<Text>, gap: bool): seq<Action> {
    if segments == [] then []
    else if |segments| == 1 then [Write(segments[0])]
    else [Write(segments[0])] + (if gap then [Pause] else []) + Segmented(segments[1..], gap)
  }

  /** The segments with the paste gaps, then the submit key. */
  function Plan(pasteGap: bool, submitDelay: bool, request: Request): seq<Action> {
    Segmented(PayloadSegments(request.payload), pasteGap)
    + if request.submit then (if submitDelay then [Pause] else []) + [Write(SUBMIT_KEY)] else []
  }

  /** The texts a plan writes. */
  function Texts(actions: seq<Action>): seq<Text> {
    if actions == [] then []
    else
      var last := actions[|actions| - 1];
      Texts(actions[..|actions| - 1]) + if last.Write? then [last.text] else []
  }

  // ----- the steps -----

  function SetTransport(d: Delivery, state: Transport): Delivery {
    if d.transport == state then d else d.(transport := state, generation := d.generation + 1)
  }

  function Refused(d: Delivery, request: Request): Option<Refusal> {
    if request.operationId == "" then Some(InvalidOperationId)
    else if request.operationId in d.used then Some(OperationIdReused)
    else None
  }

  function Deliver(d: Delivery, request: Request): Delivery {
    if Refused(d, request).Some? then d
    else
      d.(used := d.used + {request.operationId}, requests := d.requests + [request], enqueuedAt := d.enqueuedAt + [d.generation],
         queue := d.queue + [Job(|d.requests|, request, d.generation, false, 0)])
  }

  predicate IsCurrent(d: Delivery, job: Job) {
    d.transport == Connected && d.generation == job.generation
  }

  function Finish(d: Delivery, result: Result): (after: Delivery)
    requires d.queue != []
    ensures after.pasteGap == d.pasteGap && after.submitDelay == d.submitDelay
  {
    d.(queue := d.queue[1..], results := d.results[d.queue[0].number := result])
  }

  /** Perform the next action of the first job. */
  function Perform(d: Delivery, job: Job): (after: Delivery)
    requires d.queue != []
    ensures after.pasteGap == d.pasteGap && after.submitDelay == d.submitDelay
  {
    var plan := Plan(d.pasteGap, d.submitDelay, job.request);
    if job.done >= |plan| then Finish(d, Delivered)
    else
      var waiting := d.(queue := [job.(started := true)] + d.queue[1..]);
      if plan[job.done].Write? then waiting.(log := d.log + [Sent(job.number, plan[job.done].text, d.generation)]) else waiting
  }

  /** The queue reaches its next job. */
  function Begin(d: Delivery): Delivery {
    if d.queue == [] || d.queue[0].started then d
    else
      var job := d.queue[0];
      if job.request.payload == [] then Finish(d, NotSent(EmptyPayload))
      else if d.transport != Connected then Finish(d, NotSent(Disconnected))
      else if d.generation != job.generation then Finish(d, NotSent(TransportChanged))
      else Perform(d, job)
  }

  /** The action the first job waits for has ended well. */
  function Acknowledge(d: Delivery, job: Job): Delivery {
    var plan := Plan(d.pasteGap, d.submitDelay, job.request);
    if job.done >= |plan| then d else d.(acks := d.acks + [Ack(job.number, plan[job.done], d.transport, d.generation)])
  }

  /** The awaited write or pause of the first job ends; `ok` is false when it was rejected. */
  function Answered(d: Delivery, ok: bool): Delivery {
    if d.queue == [] || !d.queue[0].started then d
    else
      var job := d.queue[0];
      var heard := if ok then Acknowledge(d, job) else d;
      if !ok || !IsCurrent(d, job) then Finish(heard, Uncertain(!IsCurrent(d, job)))
      else Perform(heard, job.(done := job.done + 1))
  }

  /** The draft is cleared only when all was acknowledged. */
  predicate ClearsDraft(result: Result) {
    result.Delivered?
  }

  // ----- the controller -----

  class ComposerDeliveryController {
    var transportState: Transport
    var generation: nat
    const pasteGap: bool
    const submitDelay: bool
    var operationIds: set<string>
    var queue: seq<Job>

    var requests: seq<Request>

    // When each was enqueued, and what was written and answered.
    ghost var enqueuedAt: seq<nat>
    ghost var log: seq<Sent>
    ghost var acks: seq<Ack>
    ghost var results: map<nat, Result>

    ghost function State(): Delivery
      reads this
    {
      Delivery(transportState, generation, pasteGap, submitDelay, operationIds, queue, requests, enqueuedAt, log, acks,
               results)
    }

    constructor (pasteGap: bool, submitDelay: bool)
      ensures State() == Init(pasteGap, submitDelay)
    {
      transportState, generation := Closed, 0;
      this.pasteGap, this.submitDelay := pasteGap, submitDelay;
      operationIds, queue := {}, [];
      requests, enqueuedAt, log, acks, results := [], [], [], [], map[];
    }

    method SetTransportState(state: Transport)
      modifies this
      ensures State() == SetTransport(old(State()), state)
    {
      if transportState != state {
        transportState := state;
        generation := generation + 1;
      }
    }

    method Enqueue(request: Request) returns (refused: Option<Refusal>)
      modifies this
      ensures State() == Deliver(old(State()), request)
      ensures refused == Refused(old(State()), request)
    {
      if request.operationId == "" {
        return Some(InvalidOperationId);
      }
      if request.operationId in operationIds {
        return Some(OperationIdReused);
      }
      operationIds := operationIds + {request.operationId};
      queue := queue + [Job(|requests|, request, generation, false, 0)];
      requests, enqueuedAt := requests + [request], enqueuedAt + [generation];
      refused := None;
    }

    method Settle(result: Result)
      requires queue != []
      modifies this
      ensures State() == Finish(old(State()), result)
    {
      results := results[queue[0].number := result];
      queue := queue[1..];
    }

    method Next(job: Job)
      requires queue != []
      modifies this
      ensures State() == Perform(old(State()), job)
    {
      var plan := PlanOf(job.request);
      if job.done >= |plan| {
        Settle(Delivered);
        return;
      }
      queue := [job.(started := true)] + queue[1..];
      if plan[job.done].Write? {
        log := log + [Sent(job.number, plan[job.done].text, generation)];
      }
    }

    method PlanOf(request: Request) returns (plan: seq<Action>)
      ensures plan == Plan(pasteGap, submitDelay, request)
    {
      hide PayloadSegments;
      var parts := PayloadSegments(request.payload);
      plan := [];
      var index := 0;
      while index < |parts|
        invariant index <= |parts| && plan + Segmented(parts[index..], pasteGap) == Segmented(parts, pasteGap)
      {
        assert parts[index..][1..] == parts[index + 1..];
        plan := plan + [Write(parts[index])];
        if index < |parts| - 1 && pasteGap {
          plan := plan + [Pause];
        }
        index := index + 1;
      }
      if request.submit {
        if submitDelay {
          plan := plan + [Pause];
        }
        plan := plan + [Write(SUBMIT_KEY)];
      }
    }

    method DeliverOne()
      modifies this
      ensures State() == Begin(old(State()))
    {
      if queue == [] || queue[0].started {
        return;
      }
      var job := queue[0];
      if job.request.payload == [] {
        Settle(NotSent(EmptyPayload));
      } else if transportState != Connected {
        Settle(NotSent(Disconnected));
      } else if generation != job.generation {
        Settle(NotSent(TransportChanged));
      } else {
        Next(job);
      }
    }

    method Resume(ok: bool)
      modifies this
      ensures State() == Answered(old(State()), ok)
    {
      if queue == [] || !queue[0].started {
        return;
      }
      var job := queue[0];
      var current := transportState == Connected && generation == job.generation;
      if ok {
        acks := Acknowledge(State(), job).acks;
      }
      if !ok || !current {
        Settle(Uncertain(!current));
      } else {
        Next(job.(done := job.done + 1));
      }
    }
  }
}
