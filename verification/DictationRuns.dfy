/** Every run of src/dictationController.ts: callbacks arrive in any order, also for turns
    long gone, and the user, the recogniser and the app act between any two of them. */
module DictationRuns {
  import opened Collections
  import opened Texts
  import opened Dictation

  datatype Event =
    | Targeted(target: Option<string>)
    | Foregrounded(foreground: bool)
    | Started(outcome: Outcome)
    | Stopped(stop: Outcome)
    | Interrupted
    | CancelledByUser
    | PartialHeard(id: nat, text: string)
    | FinalHeard(id: nat, text: string, scheduled: Scheduled)
    | TurnEnded(id: nat, scheduled: Scheduled)
    | Errored(id: nat)
    | StartResolves(id: nat, stop: Outcome)
    | StartFails(id: nat)
    | StopFails(id: nat)
    | RestartFires(token: nat, outcome: Outcome)

  function Next(r: Run, e: Event): Run {
    match e
    case Targeted(target) => SetTarget(r, target)
    case Foregrounded(foreground) => SetForeground(r, foreground)
    case Started(outcome) => StartRun(r, outcome)
    case Stopped(stop) => Stop(r, stop)
    case Interrupted => Interrupt(r)
    case CancelledByUser => CancelRun(r)
    case PartialHeard(id, text) => OnPartial(r, id, text)
    case FinalHeard(id, text, scheduled) => OnFinal(r, id, text, scheduled)
    case TurnEnded(id, scheduled) => OnRecoverableEnd(r, id, scheduled)
    case Errored(id) => OnError(r, id)
    case StartResolves(id, stop) => StartResolved(r, id, stop)
    case StartFails(id) => FailStart(r, id)
    case StopFails(id) => FailStop(r, id)
    case RestartFires(token, outcome) => Restart(r, token, outcome)
  }

  function Exec(events: seq<Event>): Run {
    if events == [] then Init() else Next(Exec(events[..|events| - 1]), events[|events| - 1])
  }

  // ----- the invariant -----

  predicate TextOk(r: Run) {
    && (forall i | 0 <= i < |r.segments| :: IsSegment(r.segments[i]))
    && r.transcript == Join(r.segments)
    && (r.partial != "" ==> r.requestId.Some?)
  }

  /** A run that wants to listen has exactly one of a turn and a scheduled next turn; one that
      does not has no scheduled turn, and a turn only while it is stopping. */
  predicate TurnsOk(r: Run) {
    && (r.desiredListening ==> r.phase in {Starting, Listening} && (r.requestId.Some? <==> r.restart.None?))
    && (!r.desiredListening ==> r.restart.None? && (r.requestId.Some? <==> r.phase == Stopping))
    && (r.phase == Starting ==> r.requestId.Some?)
    && (r.phase in {Starting, Listening} ==> r.desiredListening)
    && (r.requestId.Some? ==> r.requestId.value < r.nextRequest)
    && (r.restart.Some? ==> r.restart.value == r.restartToken)
  }

  predicate Inv(r: Run) {
    TextOk(r) && TurnsOk(r)
  }

  lemma PromoteInv(r: Run)
    requires TextOk(r.(requestId := Some(0)))
    ensures TextOk(Promote(r)) && Promote(r).partial == ""
    ensures WordCount(Promote(r).transcript) == WordCount(r.transcript) + WordCount(Trim(r.partial))
    ensures r.segments <= Promote(r).segments
  {
    TrimTrims(r.partial);
    if Trim(r.partial) != "" {
      JoinCounts(r.segments, Trim(r.partial));
    }
  }

  /** Every word dictated so far: the transcript's and those of the live partial. */
  function Words(r: Run): nat {
    WordCount(r.transcript) + WordCount(Trim(r.partial))
  }

  /** No word is lost, and what the transcript has stays. */
  predicate Kept(before: Run, after: Run) {
    Words(before) <= Words(after) && before.segments <= after.segments
  }

  lemma RestartInv(r: Run, token: nat, outcome: Outcome)
    requires Inv(r)
    ensures Inv(Restart(r, token, outcome)) && Kept(r, Restart(r, token, outcome))
  {
  }

  /** A settled turn, its text already kept, leads on. */
  lemma ContinueInv(r: Run, scheduled: Scheduled)
    requires TextOk(r) && r.partial == "" && r.requestId.None? && r.restart.None?
    ensures Inv(Continue(r, scheduled)) && Kept(r, Continue(r, scheduled))
  {
    hide Restart;
    if r.desiredListening && scheduled.AtOnce? {
      var pending := r.(phase := Listening, restartToken := r.restartToken + 1, restart := Some(r.restartToken + 1));
      RestartInv(pending, r.restartToken + 1, scheduled.outcome);
    }
  }

  lemma EndedInv(r: Run, id: nat, scheduled: Scheduled)
    requires Inv(r)
    ensures Inv(OnRecoverableEnd(r, id, scheduled)) && Kept(r, OnRecoverableEnd(r, id, scheduled))
  {
    if Accepts(r, id) {
      PromoteInv(Settle(r));
      ContinueInv(Promote(Settle(r)), scheduled);
    }
  }

  lemma FinalInv(r: Run, id: nat, text: string, scheduled: Scheduled)
    requires Inv(r)
    ensures Inv(OnFinal(r, id, text, scheduled)) && Kept(r, OnFinal(r, id, text, scheduled))
  {
    hide Continue, OnRecoverableEnd, Trim, Join, Gaps;
    if Accepts(r, id) {
      var segment := CoveringSegment(Trim(text), Trim(r.partial));
      TrimTrims(text);
      TrimTrims(r.partial);
      if segment == "" {
        EndedInv(r, id, scheduled);
      } else {
        JoinCounts(r.segments, segment);
        ContinueInv(Settle(r).(partial := "", segments := r.segments + [segment], transcript := Join(r.segments + [segment])),
                    scheduled);
      }
    }
  }

  lemma InterruptInv(r: Run)
    requires Inv(r)
    ensures Inv(Interrupt(r)) && Kept(r, Interrupt(r))
  {
    if Active(r) {
      PromoteInv(Settle(CancelRestart(r)).(desiredListening := false));
    }
  }

  lemma IssueStopInv(r: Run, id: nat, stop: Outcome)
    requires Inv(r) && r.phase == Stopping
    ensures Inv(IssueStop(r, id, stop)) && Kept(r, IssueStop(r, id, stop))
  {
    PromoteInv(Settle(r.(stopIssued := true)));
  }

  lemma StopInv(r: Run, stop: Outcome)
    requires Inv(r)
    ensures Inv(Stop(r, stop)) && Kept(r, Stop(r, stop))
  {
    hide IssueStop;
    if Active(r) && r.requestId.Some? {
      IssueStopInv(CancelRestart(r).(desiredListening := false, phase := Stopping), r.requestId.value, stop);
    }
  }

  lemma FailInv(r: Run, id: nat)
    requires Inv(r)
    ensures Inv(OnError(r, id)) && Kept(r, OnError(r, id)) && Inv(FailStop(r, id)) && Kept(r, FailStop(r, id))
  {
    hide Trim, Join, Gaps;
    PromoteInv(Settle(r));
  }

  lemma ResolvedInv(r: Run, id: nat, stop: Outcome)
    requires Inv(r)
    ensures Inv(StartResolved(r, id, stop)) && Kept(r, StartResolved(r, id, stop))
  {
    hide IssueStop;
    if r.phase == Stopping {
      IssueStopInv(r.(startResolved := true), id, stop);
    }
  }

  lemma StartInv(r: Run, outcome: Outcome)
    requires Inv(r)
    ensures Inv(StartRun(r, outcome))
  {
  }

  /** What may cost words: a partial replaced, a fresh run, the user's cancel, a failed start. */
  predicate MayForget(e: Event) {
    e.PartialHeard? || e.Started? || e.CancelledByUser? || e.StartFails?
  }

  lemma ForgetInv(r: Run, e: Event)
    requires Inv(r) && MayForget(e)
    ensures Inv(Next(r, e))
  {
    hide StartRun;
    if e.Started? {
      StartInv(r, e.outcome);
    }
  }

  lemma NextInv(r: Run, e: Event)
    requires Inv(r)
    ensures Inv(Next(r, e)) && (!MayForget(e) ==> Kept(r, Next(r, e)))
  {
    hide Inv, Kept;
    match e
    case Targeted(target) => TargetInv(r, target);
    case Foregrounded(foreground) => ForegroundInv(r, foreground);
    case Stopped(stop) => StopInv(r, stop);
    case Interrupted => InterruptInv(r);
    case FinalHeard(id, text, scheduled) => FinalInv(r, id, text, scheduled);
    case TurnEnded(id, scheduled) => EndedInv(r, id, scheduled);
    case Errored(id) => FailInv(r, id);
    case StartResolves(id, stop) => ResolvedInv(r, id, stop);
    case StopFails(id) => FailInv(r, id);
    case RestartFires(token, outcome) => RestartInv(r, token, outcome);
    case _ => ForgetInv(r, e);
  }

  lemma TargetInv(r: Run, target: Option<string>)
    requires Inv(r)
    ensures Inv(SetTarget(r, target)) && Kept(r, SetTarget(r, target))
  {
    InterruptInv(r.(configured := target));
  }

  lemma ForegroundInv(r: Run, foreground: bool)
    requires Inv(r)
    ensures Inv(SetForeground(r, foreground)) && Kept(r, SetForeground(r, foreground))
  {
    InterruptInv(r.(foreground := false));
  }

  lemma {:induction false} ExecInv(events: seq<Event>)
    ensures Inv(Exec(events))
  {
    if events != [] {
      ExecInv(events[..|events| - 1]);
      NextInv(Exec(events[..|events| - 1]), events[|events| - 1]);
    }
  }

  // ----- what it means -----

  /** Nothing dictated is lost: over every run, no step but those named drops a word. */
  lemma NothingLost(events: seq<Event>, e: Event)
    ensures !MayForget(e) ==> Kept(Exec(events), Next(Exec(events), e))
  {
    ExecInv(events);
    NextInv(Exec(events), e);
  }

  /** What those cost: a start that takes effect begins with an empty transcript; the others
      keep the transcript and cost exactly the live partial. */
  lemma WhatIsForgotten(events: seq<Event>, e: Event)
    requires MayForget(e)
    ensures var before, after := Exec(events), Next(Exec(events), e);
            && (!e.Started? ==> after.segments == before.segments && after.transcript == before.transcript)
            && (e.Started? ==> after == before || (!Active(before) && after.segments == [] && after.transcript == "" && after.partial == ""))
            && (e.CancelledByUser? && Active(before) ==> after.partial == "")
            && (e.PartialHeard? ==> after.partial == before.partial || after.partial == e.text)
  {
    ExecInv(events);
  }

  /** A start that fails after its turn was heard drops the words of the live partial, and
      nothing else; a start that fails before that drops nothing. */
  lemma FailedStartForgets(events: seq<Event>, id: nat)
    ensures var before, after := Exec(events), Next(Exec(events), StartFails(id));
            Kept(before, after) <==> before.requestId != Some(id) || Trim(before.partial) == ""
  {
    ExecInv(events);
    TrimTrims(Exec(events).partial);
  }

  /** A turn that is still starting and already heard. */
  function HeardWhileStarting(target: string, text: string): seq<Event> {
    [Targeted(Some(target))] + [Started(Pending)] + [PartialHeard(0, text)]
  }

  /** So words are lost in a run any recogniser may give: a start that fails once something
      was heard. */
  lemma FailedStartLoses(target: string, text: string)
    requires Trim(text) != ""
    ensures var events := HeardWhileStarting(target, text);
            !Kept(Exec(events), Next(Exec(events), StartFails(0))) && Exec(events + [StartFails(0)]).partial == ""
  {
    var events := HeardWhileStarting(target, text);
    var e1, e2 := [Targeted(Some(target))], [Targeted(Some(target))] + [Started(Pending)];
    assert e1[..0] == [] && e2[..1] == e1 && events[..2] == e2 && (events + [StartFails(0)])[..3] == events;
    assert Exec(e1) == Init().(configured := Some(target));
    assert Exec(e2).requestId == Some(0) && Exec(e2).phase == Starting;
    assert Exec(events).requestId == Some(0) && Exec(events).partial == text;
    FailedStartForgets(events, 0);
  }

  /** The shape of the state after every run. */
  lemma StateIsSound(events: seq<Event>)
    ensures var r := Exec(events);
            && r.transcript == Join(r.segments)
            && (r.partial != "" ==> r.requestId.Some? && Active(r))
            && (r.desiredListening ==> (r.requestId.Some? <==> r.restart.None?))
            && (Active(r) ==> r.requestId.Some? || r.restart.Some?)
            && (!Active(r) ==> r.requestId.None? && r.restart.None? && r.partial == "")
  {
    ExecInv(events);
  }
}
