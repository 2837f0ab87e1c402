/** src/dictationController.ts: dictation turns, and the promise that nothing dictated is lost.

    The no-speech warning, which only informs, is not part of this model. */
module Dictation {
  import opened Collections
  import opened Texts

  // ----- words -----

  /** How many separate stretches of white space a text has. */
  function Gaps(text: string): nat {
    if text == "" then 0
    else
      var n := |text|;
      Gaps(text[..n - 1]) + if IsSpace(text[n - 1]) && (n == 1 || !IsSpace(text[n - 2])) then 1 else 0
  }

  /** The pieces of `split(/\s+/)`. */
  function WordCount(text: string): nat {
    if text == "" then 0 else Gaps(text) + 1
  }

  function CoveringSegment(final: string, partial: string): (segment: string)
    ensures segment == final || segment == partial
  {
    if WordCount(partial) > WordCount(final) then partial else final
  }

  /** `segments.join(' ')`. */
  function Join(segments: seq<string>): string {
    if segments == [] then ""
    else if |segments| == 1 then segments[0]
    else Join(segments[..|segments| - 1]) + " " + segments[|segments| - 1]
  }

  lemma {:induction false} GapsAppend(a: string, b: string)
    requires b != "" && !IsSpace(b[0])
    ensures Gaps(a + b) == Gaps(a) + Gaps(b)
    decreases |b|
  {
    var n := |b|;
    assert (a + b)[..|a| + n - 1] == a + b[..n - 1];
    if n == 1 {
      assert a + b[..0] == a;
    } else {
      GapsAppend(a, b[..n - 1]);
    }
  }

  lemma {:induction false} JoinIsSegment(segments: seq<string>)
    requires segments != [] && forall i | 0 <= i < |segments| :: IsSegment(segments[i])
    ensures IsSegment(Join(segments))
  {
    if |segments| > 1 {
      JoinIsSegment(segments[..|segments| - 1]);
    }
  }

  /** One more segment adds exactly its words. */
  lemma JoinCounts(segments: seq<string>, segment: string)
    requires IsSegment(segment) && forall i | 0 <= i < |segments| :: IsSegment(segments[i])
    ensures WordCount(Join(segments + [segment])) == WordCount(Join(segments)) + WordCount(segment)
  {
    if segments != [] {
      var front := Join(segments);
      JoinIsSegment(segments);
      assert (segments + [segment])[..|segments|] == segments;
      assert Join(segments + [segment]) == front + " " + segment;
      GapsAppend(front + " ", segment);
    } else {
      assert segments + [segment] == [segment];
    }
  }

  // ----- the controller's state -----

  datatype Phase = Idle | Starting | Listening | Stopping | Completed | Cancelled | Failed

  /** `requestId` is the turn that may report; `restart` the token of a scheduled next turn. */
  datatype Run = Run(
    phase: Phase, configured: Option<string>, target: Option<string>, foreground: bool,
    requestId: Option<nat>, startResolved: bool, stopIssued: bool, desiredListening: bool,
    restart: Option<nat>, restartToken: nat, nextRequest: nat,
    partial: string, segments: seq<string>, transcript: string)

  function Init(): Run {
    Run(Idle, None, None, true, None, false, false, false, None, 0, 0, "", [], "")
  }

  predicate Active(r: Run) {
    r.phase in {Starting, Listening, Stopping}
  }

  predicate Accepts(r: Run, id: nat) {
    r.requestId == Some(id) && Active(r)
  }

  // ----- the steps -----

  function CancelRestart(r: Run): Run {
    r.(restart := None, restartToken := r.restartToken + 1)
  }

  function Settle(r: Run): Run {
    r.(requestId := None, startResolved := false, stopIssued := false)
  }

  function Promote(r: Run): Run {
    var partial := Trim(r.partial);
    if partial == "" then r.(partial := "")
    else r.(partial := "", segments := r.segments + [partial], transcript := Join(r.segments + [partial]))
  }

  /** What a call to the recogniser does at once. */
  datatype Outcome = Done | Pending | Threw

  function BeginTurn(r: Run, outcome: Outcome): Run {
    var begun := r.(requestId := Some(r.nextRequest), nextRequest := r.nextRequest + 1, startResolved := false,
                    stopIssued := false, phase := Starting, partial := "");
    match outcome
    case Done => StartResolved(begun, r.nextRequest, Pending)
    case Pending => begun
    case Threw => FailStart(begun, r.nextRequest)
  }

  function StartResolved(r: Run, id: nat, stop: Outcome): Run {
    if r.requestId != Some(id) then r
    else
      var resolved := r.(startResolved := true);
      if r.phase == Stopping then IssueStop(resolved, id, stop)
      else if r.phase == Starting then resolved.(phase := Listening)
      else resolved
  }

  function FailStart(r: Run, id: nat): Run {
    if r.requestId != Some(id) then r else Settle(r).(desiredListening := false, phase := Failed, partial := "")
  }

  function IssueStop(r: Run, id: nat, stop: Outcome): Run {
    if r.requestId != Some(id) || r.stopIssued then r
    else if stop == Threw then FailStop(r.(stopIssued := true), id)
    else r.(stopIssued := true)
  }

  function FailStop(r: Run, id: nat): Run {
    if r.requestId != Some(id) then r
    else Promote(Settle(r)).(phase := Failed, partial := "", desiredListening := false)
  }

  /** How `schedule` behaves: it defers the callback, runs it at once, or throws. */
  datatype Scheduled = Deferred | AtOnce(outcome: Outcome) | Refused

  function ScheduleNextTurn(r: Run, scheduled: Scheduled): Run {
    if !r.desiredListening || r.restart.Some? then r
    else
      var pending := r.(restartToken := r.restartToken + 1, restart := Some(r.restartToken + 1));
      match scheduled
      case Deferred => pending
      case AtOnce(outcome) => Restart(pending, r.restartToken + 1, outcome)
      case Refused => pending.(restart := None, desiredListening := false, phase := Failed)
  }

  function Restart(r: Run, token: nat, outcome: Outcome): Run {
    if r.restart != Some(token) then r
    else if !r.desiredListening || r.phase != Listening || r.requestId.Some? then r.(restart := None)
    else BeginTurn(r.(restart := None), outcome)
  }

  /** A run with nothing said yet. */
  function Afresh(r: Run): Run {
    CancelRestart(r).(desiredListening := true, phase := Idle, target := r.configured, requestId := None, partial := "",
                      segments := [], transcript := "")
  }

  function StartRun(r: Run, outcome: Outcome): Run {
    if Active(r) || !r.foreground || r.configured.None? then r else BeginTurn(Afresh(r), outcome)
  }

  function Stop(r: Run, stop: Outcome): Run {
    if !Active(r) then r
    else
      var ended := CancelRestart(r).(desiredListening := false);
      if r.requestId.None? then ended.(phase := Completed, partial := "")
      else if r.startResolved then IssueStop(ended.(phase := Stopping), r.requestId.value, stop)
      else ended.(phase := Stopping)
  }

  function Interrupt(r: Run): Run {
    if !Active(r) then r else Promote(Settle(CancelRestart(r)).(desiredListening := false)).(phase := Completed)
  }

  function CancelRun(r: Run): Run {
    if !Active(r) then r
    else Settle(CancelRestart(r)).(desiredListening := false, phase := Cancelled, partial := "")
  }

  function SetTarget(r: Run, target: Option<string>): Run {
    if target == r.configured then r else Interrupt(r.(configured := target))
  }

  function SetForeground(r: Run, foreground: bool): Run {
    if foreground == r.foreground then r
    else if foreground then r.(foreground := true)
    else Interrupt(r.(foreground := false))
  }

  function OnPartial(r: Run, id: nat, text: string): Run {
    if Accepts(r, id) then r.(partial := text) else r
  }

  /** A turn has ended: listen again, or complete. */
  function Continue(r: Run, scheduled: Scheduled): Run {
    if r.desiredListening then ScheduleNextTurn(r.(phase := Listening), scheduled) else r.(phase := Completed)
  }

  function OnFinal(r: Run, id: nat, text: string, scheduled: Scheduled): Run {
    if !Accepts(r, id) then r
    else
      var segment := CoveringSegment(Trim(text), Trim(r.partial));
      if segment == "" then OnRecoverableEnd(r, id, scheduled)
      else
        Continue(Settle(r).(partial := "", segments := r.segments + [segment], transcript := Join(r.segments + [segment])),
                 scheduled)
  }

  function OnRecoverableEnd(r: Run, id: nat, scheduled: Scheduled): Run {
    if Accepts(r, id) then Continue(Promote(Settle(r)), scheduled) else r
  }

  function OnError(r: Run, id: nat): Run {
    if Accepts(r, id) then Promote(Settle(r)).(phase := Failed, partial := "", desiredListening := false) else r
  }

  // ----- the controller -----

  class DictationController {
    var phase: Phase
    var configuredTarget: Option<string>
    var target: Option<string>
    var inForeground: bool
    var currentRequestId: Option<nat>
    var requestStartResolved: bool
    var stopIssued: bool
    var desiredListening: bool
    var pendingRestart: Option<nat>
    var restartToken: nat
    var nextRequest: nat
    var partial: string
    var segments: seq<string>
    var transcript: string

    function State(): Run
      reads this
    {
      Run(phase, configuredTarget, target, inForeground, currentRequestId, requestStartResolved, stopIssued, desiredListening,
          pendingRestart, restartToken, nextRequest, partial, segments, transcript)
    }

    constructor ()
      ensures State() == Init()
    {
      phase, configuredTarget, target, inForeground := Idle, None, None, true;
      currentRequestId, requestStartResolved, stopIssued, desiredListening := None, false, false, false;
      pendingRestart, restartToken, nextRequest := None, 0, 0;
      partial, segments, transcript := "", [], "";
    }

    predicate IsActive()
      reads this
      ensures IsActive() <==> Active(State())
    {
      phase in {Starting, Listening, Stopping}
    }

    predicate Takes(id: nat)
      reads this
      ensures Takes(id) <==> Accepts(State(), id)
    {
      currentRequestId == Some(id) && IsActive()
    }

    method CancelPendingRestart()
      modifies this
      ensures State() == CancelRestart(old(State()))
    {
      pendingRestart, restartToken := None, restartToken + 1;
    }

    method SettleRequest()
      modifies this
      ensures State() == Settle(old(State()))
    {
      currentRequestId, requestStartResolved, stopIssued := None, false, false;
    }

    method PromotePartial()
      modifies this
      ensures State() == Promote(old(State()))
    {
      var trimmed := Trim(partial);
      partial := "";
      if trimmed != "" {
        segments := segments + [trimmed];
        transcript := Join(segments);
      }
    }

    method Begin(outcome: Outcome)
      modifies this
      ensures State() == BeginTurn(old(State()), outcome)
    {
      hide FailStart, StartResolved;
      var id := nextRequest;
      currentRequestId, nextRequest := Some(id), nextRequest + 1;
      requestStartResolved, stopIssued := false, false;
      phase, partial := Starting, "";
      if outcome == Done {
        Resolve(id, Pending);
      } else if outcome == Threw {
        StartFails(id);
      }
    }

    method Resolve(id: nat, stop: Outcome)
      modifies this
      ensures State() == StartResolved(old(State()), id, stop)
    {
      if currentRequestId == Some(id) {
        requestStartResolved := true;
        if phase == Stopping {
          AskToStop(id, stop);
        } else if phase == Starting {
          phase := Listening;
        }
      }
    }

    method StartFails(id: nat)
      modifies this
      ensures State() == FailStart(old(State()), id)
    {
      if currentRequestId == Some(id) {
        SettleRequest();
        desiredListening, phase, partial := false, Failed, "";
      }
    }

    method AskToStop(id: nat, stop: Outcome)
      modifies this
      ensures State() == IssueStop(old(State()), id, stop)
    {
      if currentRequestId == Some(id) && !stopIssued {
        stopIssued := true;
        if stop == Threw {
          StopFails(id);
        }
      }
    }

    method StopFails(id: nat)
      modifies this
      ensures State() == FailStop(old(State()), id)
    {
      if currentRequestId == Some(id) {
        SettleRequest();
        PromotePartial();
        phase, partial, desiredListening := Failed, "", false;
      }
    }

    method ScheduleTurn(scheduled: Scheduled)
      modifies this
      ensures State() == ScheduleNextTurn(old(State()), scheduled)
    {
      hide Restart;
      if !desiredListening || pendingRestart.Some? {
        return;
      }
      restartToken := restartToken + 1;
      pendingRestart := Some(restartToken);
      match scheduled
      case Deferred =>
      case AtOnce(outcome) => RestartFires(restartToken, outcome);
      case Refused => pendingRestart, desiredListening, phase := None, false, Failed;
    }

    method RestartFires(token: nat, outcome: Outcome)
      modifies this
      ensures State() == Restart(old(State()), token, outcome)
    {
      if pendingRestart == Some(token) {
        pendingRestart := None;
        if desiredListening && phase == Listening && currentRequestId.None? {
          Begin(outcome);
        }
      }
    }

    method StartListening(outcome: Outcome)
      modifies this
      ensures State() == StartRun(old(State()), outcome)
    {
      hide BeginTurn, Afresh;
      if !IsActive() && inForeground && configuredTarget.Some? {
        Clear();
        Begin(outcome);
      }
    }

    /** The fields a start sets before its first turn. */
    method Clear()
      modifies this
      ensures State() == Afresh(old(State()))
    {
      CancelPendingRestart();
      desiredListening, phase, target, currentRequestId := true, Idle, configuredTarget, None;
      partial, segments, transcript := "", [], "";
    }

    method StopListening(stop: Outcome)
      modifies this
      ensures State() == Stop(old(State()), stop)
    {
      hide IssueStop;
      if !IsActive() {
        return;
      }
      desiredListening := false;
      CancelPendingRestart();
      if currentRequestId.None? {
        phase, partial := Completed, "";
        return;
      }
      phase := Stopping;
      if requestStartResolved {
        AskToStop(currentRequestId.value, stop);
      }
    }

    method InterruptRun()
      modifies this
      ensures State() == Interrupt(old(State()))
    {
      hide Promote;
      if IsActive() {
        desiredListening := false;
        CancelPendingRestart();
        SettleRequest();
        PromotePartial();
        phase := Completed;
      }
    }

    method CancelListening()
      modifies this
      ensures State() == CancelRun(old(State()))
    {
      if IsActive() {
        desiredListening := false;
        CancelPendingRestart();
        SettleRequest();
        phase, partial := Cancelled, "";
      }
    }

    method PointAt(newTarget: Option<string>)
      modifies this
      ensures State() == SetTarget(old(State()), newTarget)
    {
      if newTarget != configuredTarget {
        configuredTarget := newTarget;
        InterruptRun();
      }
    }

    method MoveTo(foreground: bool)
      modifies this
      ensures State() == SetForeground(old(State()), foreground)
    {
      if foreground != inForeground {
        inForeground := foreground;
        if !foreground {
          InterruptRun();
        }
      }
    }

    method TakePartial(id: nat, text: string)
      modifies this
      ensures State() == OnPartial(old(State()), id, text)
    {
      if Takes(id) {
        partial := text;
      }
    }

    method EndTurn(scheduled: Scheduled)
      modifies this
      ensures State() == Continue(old(State()), scheduled)
    {
      if desiredListening {
        phase := Listening;
        ScheduleTurn(scheduled);
      } else {
        phase := Completed;
      }
    }

    method TakeFinal(id: nat, text: string, scheduled: Scheduled)
      modifies this
      ensures State() == OnFinal(old(State()), id, text, scheduled)
    {
      hide Continue, OnRecoverableEnd, CoveringSegment, Trim, Join;
      if !Takes(id) {
        return;
      }
      var segment := CoveringSegment(Trim(text), Trim(partial));
      if segment == "" {
        EndRecoverably(id, scheduled);
      } else {
        SettleRequest();
        partial, segments := "", segments + [segment];
        transcript := Join(segments);
        EndTurn(scheduled);
      }
    }

    method EndRecoverably(id: nat, scheduled: Scheduled)
      modifies this
      ensures State() == OnRecoverableEnd(old(State()), id, scheduled)
    {
      if Takes(id) {
        SettleRequest();
        PromotePartial();
        EndTurn(scheduled);
      }
    }

    method Fail(id: nat)
      modifies this
      ensures State() == OnError(old(State()), id)
    {
      if Takes(id) {
        SettleRequest();
        PromotePartial();
        phase, partial, desiredListening := Failed, "", false;
      }
    }
  }
}
