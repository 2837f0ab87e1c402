/** src/dictationController.ts: which text becomes a segment of the transcript, and when. */
module DictationSegments {
  import opened Collections
  import opened Texts
  import opened Dictation
  import opened DictationRuns

  /** A final is taken unless it has fewer words than what was shown last: then that is, so
      that a dropped tail is kept. Blank text is never a segment. */
  predicate IsChoice(final: string, partial: string, chosen: seq<string>) {
    if WordCount(final) < WordCount(partial) then chosen == [partial]
    else if final == "" then chosen == []
    else chosen == [final]
  }

  /** The live partial, if it says anything. */
  function Live(r: Run): seq<string> {
    if Trim(r.partial) == "" then [] else [Trim(r.partial)]
  }

  /** The stop command of the live turn fails at once. */
  predicate StopThrows(r: Run, e: Event) {
    && !r.stopIssued && r.requestId.Some?
    && ((e == Stopped(Threw) && Active(r) && r.startResolved)
        || (e.StartResolves? && e.stop == Threw && r.requestId == Some(e.id) && r.phase == Stopping))
  }

  /** The live partial is all there will be of its turn. */
  predicate Promotes(r: Run, e: Event) {
    || ((e.TurnEnded? || e.Errored?) && Accepts(r, e.id))
    || (Active(r) && (e.Interrupted? || (e.Targeted? && e.target != r.configured) || (e.Foregrounded? && r.foreground && !e.foreground)))
    || (e.StopFails? && r.requestId == Some(e.id)) || StopThrows(r, e)
  }

  /** A start that takes effect. */
  predicate BeginsRun(r: Run, e: Event) {
    e.Started? && !Active(r) && r.foreground && r.configured.Some?
  }

  ghost predicate Grows(r: Run, e: Event, after: seq<string>) {
    if BeginsRun(r, e) then after == []
    else if e.FinalHeard? && Accepts(r, e.id)
    then exists chosen :: IsChoice(Trim(e.text), Trim(r.partial), chosen) && after == r.segments + chosen
    else after == r.segments + if Promotes(r, e) then Live(r) else []
  }

  lemma BeginKeeps(r: Run, outcome: Outcome)
    ensures BeginTurn(r, outcome).segments == r.segments
  {
  }

  lemma RestartKeeps(r: Run, token: nat, outcome: Outcome)
    ensures Restart(r, token, outcome).segments == r.segments
  {
    hide BeginTurn;
    BeginKeeps(r.(restart := None), outcome);
  }

  lemma ContinueKeeps(r: Run, scheduled: Scheduled)
    ensures Continue(r, scheduled).segments == r.segments
  {
    hide Restart;
    if scheduled.AtOnce? {
      RestartKeeps(r.(phase := Listening, restartToken := r.restartToken + 1, restart := Some(r.restartToken + 1)), r.restartToken + 1, scheduled.outcome);
    }
  }

  lemma PromoteAdds(r: Run)
    ensures Promote(r).segments == r.segments + Live(r)
  {
  }

  lemma FinalGrows(r: Run, id: nat, text: string, scheduled: Scheduled)
    requires Accepts(r, id)
    ensures Grows(r, FinalHeard(id, text, scheduled), OnFinal(r, id, text, scheduled).segments)
  {
    hide Continue, Join, Gaps, Trim;
    var final, partial := Trim(text), Trim(r.partial);
    var segment := CoveringSegment(final, partial);
    var kept := Settle(r).(partial := "", segments := r.segments + [segment], transcript := Join(r.segments + [segment]));
    ContinueKeeps(kept, scheduled);
    PromoteAdds(Settle(r));
    ContinueKeeps(Promote(Settle(r)), scheduled);
    if segment == "" {
      assert IsChoice(final, partial, []);
    } else {
      assert IsChoice(final, partial, [segment]);
    }
  }

  lemma EndGrows(r: Run, e: Event)
    requires e.TurnEnded? || e.Errored? || e.StopFails?
    ensures Grows(r, e, Next(r, e).segments)
  {
    hide Continue, Promote, Trim;
    PromoteAdds(Settle(r));
    if e.TurnEnded? {
      ContinueKeeps(Promote(Settle(r)), e.scheduled);
    }
  }

  lemma InterruptGrows(r: Run)
    ensures Interrupt(r).segments == r.segments + if Active(r) then Live(r) else []
  {
    hide Promote, Trim;
    PromoteAdds(Settle(CancelRestart(r)).(desiredListening := false));
  }

  lemma AwayGrows(r: Run, e: Event)
    requires e.Interrupted? || e.Targeted? || e.Foregrounded?
    ensures Grows(r, e, Next(r, e).segments)
  {
    hide Interrupt, Trim;
    InterruptGrows(r);
    if e.Targeted? {
      InterruptGrows(r.(configured := e.target));
    } else if e.Foregrounded? {
      InterruptGrows(r.(foreground := false));
    }
  }

  lemma IssueStopGrows(r: Run, id: nat, stop: Outcome)
    ensures IssueStop(r, id, stop).segments
         == r.segments + if r.requestId == Some(id) && !r.stopIssued && stop == Threw then Live(r) else []
  {
    hide Promote, Trim;
    PromoteAdds(Settle(r.(stopIssued := true)));
  }

  lemma StopGrows(r: Run, e: Event)
    requires e.Stopped? || e.StartResolves?
    ensures Grows(r, e, Next(r, e).segments)
  {
    hide IssueStop, Trim;
    if e.StartResolves? {
      IssueStopGrows(r.(startResolved := true), e.id, e.stop);
    } else if r.requestId.Some? {
      IssueStopGrows(CancelRestart(r).(desiredListening := false, phase := Stopping), r.requestId.value, e.stop);
    }
  }

  lemma StartGrows(r: Run, e: Event)
    requires e.Started? || e.RestartFires? || e.CancelledByUser? || e.PartialHeard? || e.StartFails?
    ensures Grows(r, e, Next(r, e).segments)
  {
    hide BeginTurn, Trim;
    if e.Started? {
      BeginKeeps(Afresh(r), e.outcome);
    } else if e.RestartFires? {
      BeginKeeps(r.(restart := None), e.outcome);
    }
  }

  /** In every run each step adds exactly this to the transcript: a final, or the partial it
      does not cover; the live partial of a turn that ends, is interrupted or fails; and
      nothing else. */
  lemma SegmentsExactly(events: seq<Event>, e: Event)
    ensures Grows(Exec(events), e, Next(Exec(events), e).segments)
  {
    var r := Exec(events);
    hide Exec, Grows, OnFinal;
    match e
    case FinalHeard(id, text, scheduled) =>
      if Accepts(r, id) {
        FinalGrows(r, id, text, scheduled);
      } else {
        FinalLate(r, id, text, scheduled);
      }
    case TurnEnded(_, _) => EndGrows(r, e);
    case Errored(_) => EndGrows(r, e);
    case StopFails(_) => EndGrows(r, e);
    case Interrupted => AwayGrows(r, e);
    case Targeted(_) => AwayGrows(r, e);
    case Foregrounded(_) => AwayGrows(r, e);
    case Stopped(_) => StopGrows(r, e);
    case StartResolves(_, _) => StopGrows(r, e);
    case _ => StartGrows(r, e);
  }

  lemma FinalLate(r: Run, id: nat, text: string, scheduled: Scheduled)
    requires !Accepts(r, id)
    ensures Grows(r, FinalHeard(id, text, scheduled), OnFinal(r, id, text, scheduled).segments)
  {
  }

  // ----- the stop command -----

  /** The recogniser was told to stop exactly if the user stopped and its start was answered. */
  predicate StopOk(r: Run) {
    && (r.phase == Stopping ==> (r.stopIssued <==> r.startResolved))
    && (r.phase != Stopping ==> !r.stopIssued)
  }

  lemma AwayStops(r: Run, e: Event)
    requires StopOk(r) && (e.Targeted? || e.Foregrounded? || e.Interrupted? || e.CancelledByUser? || e.PartialHeard? || e.Errored?)
    ensures StopOk(Next(r, e))
  {
    hide Trim, Join;
  }

  lemma RestartStops(r: Run, token: nat, outcome: Outcome)
    requires StopOk(r)
    ensures StopOk(Restart(r, token, outcome))
  {
  }

  lemma ContinueStops(r: Run, scheduled: Scheduled)
    requires !r.stopIssued
    ensures StopOk(Continue(r, scheduled))
  {
    hide Restart;
    if scheduled.AtOnce? {
      RestartStops(r.(phase := Listening, restartToken := r.restartToken + 1, restart := Some(r.restartToken + 1)), r.restartToken + 1, scheduled.outcome);
    }
  }

  lemma EndStops(r: Run, e: Event)
    requires StopOk(r) && (e.FinalHeard? || e.TurnEnded?)
    ensures StopOk(Next(r, e))
  {
    hide Trim, Join, Continue, WordCount;
    if Accepts(r, e.id) {
      ContinueStops(Promote(Settle(r)), e.scheduled);
      if e.FinalHeard? {
        var segment := CoveringSegment(Trim(e.text), Trim(r.partial));
        ContinueStops(Settle(r).(partial := "", segments := r.segments + [segment], transcript := Join(r.segments + [segment])), e.scheduled);
      }
    }
  }

  lemma TurnStops(r: Run, e: Event)
    requires DictationRuns.Inv(r) && StopOk(r) && (e.Started? || e.RestartFires? || e.StartFails? || e.StopFails?)
    ensures StopOk(Next(r, e))
  {
    hide Trim, Join, Gaps, WordCount;
  }

  lemma ToldStops(r: Run, e: Event)
    requires DictationRuns.Inv(r) && StopOk(r) && (e.Stopped? || e.StartResolves?)
    ensures StopOk(Next(r, e))
  {
    hide Trim, Join, Gaps, WordCount;
  }

  lemma NextStops(r: Run, e: Event)
    requires DictationRuns.Inv(r) && StopOk(r)
    ensures StopOk(Next(r, e))
  {
    hide DictationRuns.Inv, StopOk, Next;
    if e.FinalHeard? || e.TurnEnded? {
      EndStops(r, e);
    } else if e.Stopped? || e.StartResolves? {
      ToldStops(r, e);
    } else if e.Started? || e.RestartFires? || e.StartFails? || e.StopFails? {
      TurnStops(r, e);
    } else {
      AwayStops(r, e);
    }
  }

  /** In every run the recogniser was told to stop its turn exactly if the user wants to stop and
      its start was answered. */
  lemma {:induction false} ToldToStop(events: seq<Event>)
    ensures StopOk(Exec(events))
  {
    if events != [] {
      hide DictationRuns.Inv, StopOk, Next;
      ToldToStop(events[..|events| - 1]);
      ExecInv(events[..|events| - 1]);
      NextStops(Exec(events[..|events| - 1]), events[|events| - 1]);
    }
    hide DictationRuns.Inv, Next;
  }

  lemma RestartShows(r: Run, token: nat, outcome: Outcome)
    ensures var after := Restart(r, token, outcome); after.partial == r.partial || after.partial == ""
  {
  }

  lemma ContinueShows(r: Run, scheduled: Scheduled)
    ensures var after := Continue(r, scheduled); after.partial == r.partial || after.partial == ""
  {
    hide Restart;
    if scheduled.AtOnce? {
      var token := r.restartToken + 1;
      RestartShows(r.(phase := Listening, restartToken := token, restart := Some(token)), token, scheduled.outcome);
    }
  }

  lemma EndShows(r: Run, e: Event)
    requires e.FinalHeard? || e.TurnEnded?
    ensures var after := Next(r, e); after.partial == r.partial || after.partial == ""
  {
    hide Continue, Join, Gaps, Trim;
    if Accepts(r, e.id) {
      ContinueShows(Promote(Settle(r)), e.scheduled);
      if e.FinalHeard? {
        var segment := CoveringSegment(Trim(e.text), Trim(r.partial));
        var segments := r.segments + [segment];
        ContinueShows(Settle(r).(partial := "", segments := segments, transcript := Join(segments)), e.scheduled);
      }
    }
  }

  /** In every run what is shown as heard so far is what the live turn reported last: only its
      reports replace the text, each with its own, and every other step keeps it or clears it. */
  lemma ShownExactly(events: seq<Event>, e: Event)
    ensures var r, after := Exec(events), Next(Exec(events), e);
            if e.PartialHeard? && Accepts(r, e.id) then after == r.(partial := e.text)
            else after.partial == r.partial || after.partial == ""
  {
    var r := Exec(events);
    hide Exec, Continue, Join, Gaps, Trim, OnFinal, OnRecoverableEnd, Restart;
    match e
    case FinalHeard(_, _, _) => EndShows(r, e);
    case TurnEnded(_, _) => EndShows(r, e);
    case RestartFires(token, outcome) => RestartShows(r, token, outcome);
    case _ =>
  }

  /** In every run a start takes effect exactly if nothing is under way, the app is in front and
      a target is set; it aims at that target with a new turn, which listens, waits or has failed
      as the recogniser answered. */
  lemma StartExactly(events: seq<Event>, outcome: Outcome)
    ensures var r, after := Exec(events), Next(Exec(events), Started(outcome));
            if BeginsRun(r, Started(outcome)) then
              && after.target == r.configured && after.nextRequest == r.nextRequest + 1
              && (outcome == Done <==> after.phase == Listening && after.startResolved)
              && (outcome == Pending <==> after.phase == Starting)
              && (outcome == Threw <==> after.phase == Failed)
              && after.requestId == (if outcome == Threw then None else Some(r.nextRequest))
            else after == r
  {
  }
}
