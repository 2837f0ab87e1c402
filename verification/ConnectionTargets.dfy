/** src/connectionController.ts: which host a connection was dialled for, and which host a
    `connect` is answered for. */
module ConnectionTargets {
  import opened Collections
  import opened ConnectionTransport
  import opened ConnectionTransportRuns
  import opened ConnectionTransportSafety

  predicate Dials(role: Role) {
    role.Connect? || role.Ladder?
  }

  /** The host each returned connection was dialled for, by the events. */
  function DialledFor(budget: nat, events: seq<Event>): map<Connection, Host> {
    if events == [] then map[]
    else
      var before, e := events[..|events| - 1], events[|events| - 1];
      var c := Run(budget, before);
      var dialled := DialledFor(budget, before);
      if e.Returned? && Enabled(c, e) && Dials(c.tasks[e.id].role)
      then dialled[e.connection := c.tasks[e.id].role.target]
      else dialled
  }

  // ----- the invariant -----

  /** A ladder, and a connect from its probe or its dial on, is about the controller's host. */
  predicate Settled(task: Task) {
    match task.role
    case Ladder(_, _) => true
    case Connect(_) =>
      match task.at {
        case Probe | TrustStore | Native => true
        case Cancelling(after) => after.ReturnedClosed?
        case Closing(after) => after.ReturnedClosed?
        case _ => false
      }
    case _ => false
  }

  predicate Aims(c: Controller, task: Task) {
    Dials(task.role) && Settled(task) && Current(c, task.intent) ==> c.host == Some(task.role.target)
  }

  ghost predicate TargetsOk(c: Controller, dialled: map<Connection, Host>) {
    && dialled.Keys == c.returned
    && (c.connection.Some? ==> c.connection.value in dialled && c.host == Some(dialled[c.connection.value]))
    && forall id | id in c.tasks :: Aims(c, c.tasks[id])
  }

  /** Task `id` goes on or ends, and the host stays. */
  predicate Moves(c: Controller, d: Controller, id: nat) {
    && id in c.tasks && d.tasks == (if id in d.tasks then c.tasks[id := d.tasks[id]] else c.tasks - {id})
    && d.intent == c.intent && d.disposed == c.disposed && d.host == c.host
    && (d.connection.None? || d.connection == c.connection) && d.returned == c.returned
  }

  lemma MovesOk(c: Controller, d: Controller, id: nat, dialled: map<Connection, Host>)
    requires TargetsOk(c, dialled) && Moves(c, d, id)
    requires id in d.tasks ==> Aims(d, d.tasks[id])
    ensures TargetsOk(d, dialled)
  {
    forall other | other in d.tasks && other != id
      ensures Aims(d, d.tasks[other])
    {
      assert Aims(c, c.tasks[other]);
    }
  }

  // ----- the end of a close -----

  /** What follows a failed dial keeps host, connection and the target of the call. */
  ghost predicate Carries(x: Controller, d: Controller, id: nat, task: Task) {
    && d.host == x.host && d.connection == x.connection && d.intent == x.intent && d.disposed == x.disposed && d.returned == x.returned
    && d.tasks == (if id in d.tasks then x.tasks[id := d.tasks[id]] else x.tasks - {id})
    && (id in d.tasks ==>
          && d.tasks[id].intent == task.intent && task.role.Ladder? && d.tasks[id].role.Ladder?
          && d.tasks[id].role.target == task.role.target)
  }

  lemma FailedCarries(x: Controller, id: nat, task: Task, trust: bool)
    ensures Carries(x, DialFailed(x, id, task, trust), id, task)
  {
  }

  lemma ThrowsCarries(x: Controller, id: nat, task: Task, retryable: bool, trust: bool)
    ensures Carries(x, DialThrows(x, id, task, retryable, trust), id, task)
  {
    hide DialFailed;
    FailedCarries(x, id, task, false);
    FailedCarries(x.(retryable := retryable, phase := if trust then AwaitingTrust else Failed), id, task, trust);
  }

  lemma RefusedCarries(x: Controller, id: nat, task: Task, after: After)
    requires after.ReturnedClosed? || task.role.Ladder?
    ensures Carries(x, AfterClose(x, id, task, after), id, task)
  {
    hide DialFailed, DialThrows;
    if after.ReturnedClosed? {
      FailedCarries(x, id, task, false);
      ThrowsCarries(x, id, task, x.retryable, true);
      if after.refusal.Unusable? {
        ThrowsCarries(x, id, task, after.refusal.retryable, false);
      }
    }
  }

  /** A step in which a call carries on towards its own target. */
  lemma CarriesOk(c: Controller, x: Controller, d: Controller, id: nat, task: Task, dialled: map<Connection, Host>)
    requires TargetsOk(c, dialled) && id in c.tasks && task.role == c.tasks[id].role && task.intent == c.tasks[id].intent
    requires Carries(x, d, id, task)
    requires x.host == c.host && x.intent == c.intent && x.disposed == c.disposed && x.returned == c.returned && x.tasks == c.tasks
    requires x.connection == c.connection || x.connection.None?
    ensures TargetsOk(d, dialled)
  {
    assert Aims(c, c.tasks[id]);
    MovesOk(c, d, id, dialled);
  }

  /** A connect that starts its dial is alone with its intent, and nothing is installed. */
  lemma DialsOk(c: Controller, x: Controller, id: nat, task: Task, dialled: map<Connection, Host>)
    requires Inv(c) && TargetsOk(c, dialled) && id in c.tasks && task.role == c.tasks[id].role && task.intent == c.tasks[id].intent
    requires task.role.Connect? && Current(c, task.intent) && x == c.(connection := None)
    ensures TargetsOk(StartDial(x.(host := Some(task.role.target)), id, task), dialled)
  {
    var d := StartDial(x.(host := Some(task.role.target)), id, task);
    forall other | other in d.tasks && other != id
      ensures Aims(d, d.tasks[other])
    {
      assert c.tasks[other].intent == c.tasks[id].intent && Mover(c.tasks[other].role) ==> other == id;
    }
  }

  lemma ClosedOk(c: Controller, x: Controller, id: nat, task: Task, after: After, dialled: map<Connection, Host>)
    requires Inv(c) && TargetsOk(c, dialled) && id in c.tasks && task.role == c.tasks[id].role && task.intent == c.tasks[id].intent
    requires x == c.(connection := x.connection) && (x.connection == c.connection || x.connection.None?) && ClosedAt(c, x, task, after)
    ensures TargetsOk(AfterClose(x, id, task, after), dialled)
  {
    var d := AfterClose(x, id, task, after);
    if after.ReturnedClosed? || task.role.Ladder? {
      RefusedCarries(x, id, task, after);
      hide Inv, TargetsOk, AfterClose, Carries;
      CarriesOk(c, x, d, id, task, dialled);
    } else if task.role.Connect? && Current(c, task.intent) {
      DialsOk(c, x, id, task, dialled);
    } else if task.role.Dispose? {
      assert Good(c, id, c.tasks[id]);
    } else {
      MovesOk(c, d, id, dialled);
    }
  }

  // ----- every step -----

  lemma OnClosedOk(c: Controller, id: nat, dialled: map<Connection, Host>)
    requires Inv(c) && TargetsOk(c, dialled) && Enabled(c, CloseAnswered(id))
    ensures TargetsOk(OnClosed(c, id), dialled)
  {
    assert Good(c, id, c.tasks[id]);
    ClosedOk(c, c, id, c.tasks[id], c.tasks[id].at.after, dialled);
  }

  lemma OnPtysOk(c: Controller, id: nat, dialled: map<Connection, Host>)
    requires Inv(c) && TargetsOk(c, dialled) && Enabled(c, PtysClosed(id))
    ensures TargetsOk(OnPtys(c, id), dialled)
  {
    var task := c.tasks[id];
    assert Good(c, id, task) && Aims(c, task);
    if task.held.None? {
      ClosedOk(c, c, id, task, OldClosed, dialled);
    } else {
      MovesOk(c, OnPtys(c, id), id, dialled);
    }
  }

  lemma CloseCurrentOk(c: Controller, id: nat, after: After, dialled: map<Connection, Host>)
    requires Inv(c) && TargetsOk(c, dialled) && id in c.tasks && c.tasks[id].held.None?
    requires (c.tasks[id].at == Terminals && after == OldClosed) || (c.tasks[id].at == FailedPtys && after == RetryClosed)
    ensures TargetsOk(CloseCurrent(c, id, c.tasks[id], after), dialled)
  {
    var task := c.tasks[id];
    assert Good(c, id, task) && Aims(c, task);
    if c.connection.None? {
      ClosedOk(c, c.(connection := None), id, task, after, dialled);
    } else {
      MovesOk(c, CloseCurrent(c, id, task, after), id, dialled);
    }
  }

  lemma DialAnswersOk(c: Controller, e: Event, dialled: map<Connection, Host>)
    requires Inv(c) && TargetsOk(c, dialled) && Enabled(c, e) && (e.TrustRead? || e.DialError? || e.DelayOver?)
    ensures TargetsOk(Next(c, e), dialled)
  {
    var id := e.id;
    var task := c.tasks[id];
    assert Good(c, id, task) && Aims(c, task);
    hide DialFailed, DialThrows;
    match e
    case TrustRead(_) =>
      FailedCarries(c, id, task, false);
      if Current(c, task.intent) {
        MovesOk(c, OnTrustStore(c, id), id, dialled);
      } else {
        CarriesOk(c, c, DialFailed(c, id, task, false), id, task, dialled);
      }
    case DialError(_, retryable, trust) =>
      ThrowsCarries(c, id, task, retryable, trust);
      CarriesOk(c, c, DialThrows(c, id, task, retryable, trust), id, task, dialled);
    case DelayOver(_) =>
      MovesOk(c, OnDelay(c, id), id, dialled);
  }

  /** A dial's answer: what is installed was dialled for the host. */
  lemma ReturnedOk(c: Controller, id: nat, t: Connection, verdict: Option<Refusal>, dialled: map<Connection, Host>)
    requires Inv(c) && TargetsOk(c, dialled) && Enabled(c, Returned(id, t, verdict))
    ensures Dials(c.tasks[id].role)
    ensures TargetsOk(OnReturned(c, id, t, verdict), dialled[t := c.tasks[id].role.target])
  {
    var task := c.tasks[id];
    assert Good(c, id, task) && Aims(c, task);
    var r := c.(returned := c.returned + {t});
    var after := dialled[t := task.role.target];
    ReturnOk(c, t, task.role.target, dialled);
    hide Inv, Good;
    if !Current(c, task.intent) {
      MovesOk(r, HandOver(r, id, task, Some(t), ReturnedClosed(Cancelled)), id, after);
    } else if verdict.Some? {
      MovesOk(r, HandOver(r, id, task, Some(t), ReturnedClosed(verdict.value)), id, after);
    } else {
      InstallOk(r, id, t, after);
    }
  }

  lemma ReturnOk(c: Controller, t: Connection, target: Host, dialled: map<Connection, Host>)
    requires TargetsOk(c, dialled) && t !in c.returned
    ensures TargetsOk(c.(returned := c.returned + {t}), dialled[t := target])
  {
    var r := c.(returned := c.returned + {t});
    assert forall id | id in r.tasks :: Aims(c, c.tasks[id]) && Aims(r, r.tasks[id]);
  }

  lemma InstallOk(c: Controller, id: nat, t: Connection, dialled: map<Connection, Host>)
    requires TargetsOk(c, dialled) && IsAt(c, id, Native) && Dials(c.tasks[id].role) && c.host == Some(c.tasks[id].role.target)
    requires t in dialled && dialled[t] == c.tasks[id].role.target
    ensures TargetsOk(Install(c, id, c.tasks[id], t), dialled)
  {
    var d := Install(c, id, c.tasks[id], t);
    forall other | other in d.tasks && other != id
      ensures Aims(d, d.tasks[other])
    {
      assert Aims(c, c.tasks[other]);
    }
  }

  lemma OnListenerOk(c: Controller, id: nat, reusable: bool, dialled: map<Connection, Host>)
    requires TargetsOk(c, dialled) && IsAt(c, id, Listener) && c.tasks[id].role.Connect?
    ensures TargetsOk(OnListener(c, id, reusable), dialled)
  {
    MovesOk(c, OnListener(c, id, reusable), id, dialled);
  }

  lemma OnProbeOk(c: Controller, id: nat, answered: bool, connected: bool, dialled: map<Connection, Host>)
    requires Inv(c) && TargetsOk(c, dialled) && IsAt(c, id, Probe)
    ensures TargetsOk(OnProbe(c, id, answered, connected), dialled)
  {
    assert Good(c, id, c.tasks[id]);
    MovesOk(c, OnProbe(c, id, answered, connected), id, dialled);
  }

  lemma OnPendingOk(c: Controller, id: nat, dialled: map<Connection, Host>)
    requires Inv(c) && TargetsOk(c, dialled) && IsAt(c, id, Pending)
    ensures TargetsOk(OnPending(c, id), dialled)
  {
    assert Good(c, id, c.tasks[id]);
    MovesOk(c, OnPending(c, id), id, dialled);
  }

  lemma OnCancelledOk(c: Controller, id: nat, dialled: map<Connection, Host>)
    requires TargetsOk(c, dialled) && Enabled(c, CancelAnswered(id))
    ensures TargetsOk(OnCancelled(c, id), dialled)
  {
    assert Aims(c, c.tasks[id]);
    MovesOk(c, OnCancelled(c, id), id, dialled);
  }

  lemma OnScheduledOk(c: Controller, id: nat, scheduled: bool, dialled: map<Connection, Host>)
    requires TargetsOk(c, dialled) && IsAt(c, id, Scheduling)
    ensures TargetsOk(OnScheduled(c, id, scheduled), dialled)
  {
    MovesOk(c, OnScheduled(c, id, scheduled), id, dialled);
  }

  lemma AttemptCarries(x: Controller, id: nat, task: Task, attempt: nat)
    requires task.role.Ladder?
    ensures Carries(x, Attempt(x, id, task, attempt), id, task)
  {
  }

  lemma OnSessionsOk(c: Controller, id: nat, listed: bool, still: Phase, terminals: bool, dialled: map<Connection, Host>)
    requires TargetsOk(c, dialled) && Enabled(c, SessionsListed(id, listed, still, terminals))
    ensures TargetsOk(OnSessions(c, id, listed, still, terminals), dialled)
  {
    var task := c.tasks[id];
    assert Aims(c, task);
    var heard := if !listed && c.connection == Some(task.at.of) && c.phase != Reconnecting then c.(phase := still) else c;
    AttemptCarries(heard, id, task, task.role.attempt + 1);
    hide Attempt, TargetsOk;
    if Current(c, task.intent) && (if listed then c.connection.None? else heard.phase == Reconnecting) {
      CarriesOk(c, heard, OnSessions(c, id, listed, still, terminals), id, task, dialled);
    } else {
      MovesOk(c, OnSessions(c, id, listed, still, terminals), id, dialled);
    }
  }

  lemma OnAttachedOk(c: Controller, id: nat, answer: Attached, dialled: map<Connection, Host>)
    requires TargetsOk(c, dialled) && Enabled(c, TerminalAttached(id, answer))
    ensures TargetsOk(OnAttached(c, id, answer), dialled)
  {
    assert Aims(c, c.tasks[id]);
    hide TargetsOk;
    if !answer.More? || !Current(c, c.tasks[id].intent) {
      MovesOk(c, OnAttached(c, id, answer), id, dialled);
    }
  }

  /** Nothing that was waiting is current after a new intent. */
  lemma NewIntentOk(c: Controller, d: Controller, dialled: map<Connection, Host>)
    requires Inv(c) && TargetsOk(c, dialled) && d.intent == c.intent + 1
    requires exists task :: d.tasks == c.tasks[c.nextId := task] && (task.role.Ladder? ==> d.host == Some(task.role.target)) && !task.at.Probe?
                            && (task.role.Connect? ==> task.at.Listener?)
    requires d.host == c.host && d.returned == c.returned && (d.connection == c.connection || d.connection.None?)
    ensures TargetsOk(d, dialled)
  {
    forall id | id in d.tasks && id != c.nextId
      ensures !Current(d, d.tasks[id].intent)
    {
      assert Good(c, id, c.tasks[id]);
    }
  }

  lemma RecoveryOk(c: Controller, dialled: map<Connection, Host>)
    requires Inv(c) && TargetsOk(c, dialled)
    ensures TargetsOk(ReconnectAndAttach(c), dialled) && TargetsOk(StartRelease(c), dialled)
  {
    if c.ladder.None? && c.host.Some? {
      var task := Task(Ladder(c.host.value, 0), c.intent + 1, c.connection, Ptys);
      assert ReconnectAndAttach(c).tasks == c.tasks[c.nextId := task];
      NewIntentOk(c, ReconnectAndAttach(c), dialled);
    }
    var release := Task(Release, c.intent + 1, c.connection, Ptys);
    assert StartRelease(c).tasks == c.tasks[c.nextId := release];
    NewIntentOk(c, StartRelease(c), dialled);
  }

  lemma CallersOk(c: Controller, e: Event, dialled: map<Connection, Host>)
    requires Inv(c) && TargetsOk(c, dialled)
    requires e.ConnectTo? || e.Trigger? || e.RetryNow? || e.CloseAll? || e.NativeLost? || e.NativeExpired? || e.TerminalPhase?
    ensures TargetsOk(Next(c, e), dialled)
  {
    RecoveryOk(c, dialled);
    hide ReconnectAndAttach, StartRelease;
    match e
    case ConnectTo(target, admitted) =>
      if !c.disposed && admitted {
        var task := Task(Connect(target), c.intent + 1, None, Listener);
        assert Next(c, e).tasks == c.tasks[c.nextId := task];
        NewIntentOk(c, Next(c, e), dialled);
      }
    case CloseAll =>
      if !c.disposed {
        var task := Task(Dispose, c.intent + 1, None, Pending);
        assert Next(c, e).tasks == c.tasks[c.nextId := task];
        NewIntentOk(c, Next(c, e), dialled);
      }
    case TerminalPhase(phase) => AwayOk(c, Next(c, e), dialled);
    case NativeExpired(connection) => AwayOk(c, Next(c, e), dialled);
    case _ =>
  }

  lemma AwayOk(c: Controller, d: Controller, dialled: map<Connection, Host>)
    requires TargetsOk(c, dialled) && d.tasks == c.tasks && d.intent == c.intent && d.disposed == c.disposed && d.host == c.host
    requires d.returned == c.returned && (d.connection == c.connection || d.connection.None?)
    ensures TargetsOk(d, dialled)
  {
    forall id | id in d.tasks
      ensures Aims(d, d.tasks[id])
    {
      assert Aims(c, c.tasks[id]);
    }
  }

  /** A task without an intent of its own aims at nothing. */
  lemma AsideOk(c: Controller, d: Controller, dialled: map<Connection, Host>)
    requires TargetsOk(c, dialled) && d.intent == c.intent && d.disposed == c.disposed && d.host == c.host
    requires exists task :: d.tasks == c.tasks[c.nextId := task] && !Dials(task.role)
    requires d.returned == c.returned && d.connection == c.connection
    ensures TargetsOk(d, dialled)
  {
    forall id | id in d.tasks && id != c.nextId
      ensures Aims(d, d.tasks[id])
    {
      assert Aims(c, c.tasks[id]);
    }
  }

  lemma OnGraceOk(c: Controller, id: nat, survived: bool, still: Phase, dialled: map<Connection, Host>)
    requires Inv(c) && TargetsOk(c, dialled) && Enabled(c, GraceAnswered(id, survived, still))
    ensures TargetsOk(OnGrace(c, id, survived, still), dialled)
  {
    assert Good(c, id, c.tasks[id]);
    var x := if survived then c.(phase := still) else c;
    EndInv(c, x, id);
    MovesOk(c, End(x, id), id, dialled);
    hide Inv, TargetsOk, ReconnectAndAttach, StartRelease;
    RecoveryOk(End(x, id), dialled);
  }

  lemma ForegroundOk(c: Controller, reconnect: bool, late: bool, dialled: map<Connection, Host>)
    requires Inv(c) && TargetsOk(c, dialled)
    ensures TargetsOk(EnterForeground(c, reconnect, late), dialled)
  {
    var away := c.(grace := false);
    UngracedInv(c);
    AwayOk(c, away, dialled);
    hide Inv, TargetsOk, ReconnectAndAttach, StartRelease;
    RecoveryOk(away, dialled);
    if !c.disposed && c.host.Some? && c.grace && c.connection.Some? && !late {
      var task := Task(Foreground(reconnect), 0, None, Grace);
      assert EnterForeground(c, reconnect, late).tasks == c.tasks[c.nextId := task];
      AsideOk(c, EnterForeground(c, reconnect, late), dialled);
    }
  }

  lemma BackgroundOk(c: Controller, dialled: map<Connection, Host>)
    requires TargetsOk(c, dialled)
    ensures TargetsOk(EnterBackground(c), dialled)
  {
    if !c.disposed && c.connection.Some? {
      var task := Task(Schedule, 0, None, Scheduling);
      assert EnterBackground(c).tasks == c.tasks[c.nextId := task];
      AsideOk(c, EnterBackground(c), dialled);
    }
  }

  lemma AnswersOk(c: Controller, e: Event, dialled: map<Connection, Host>)
    requires Inv(c) && TargetsOk(c, dialled) && Enabled(c, e)
    requires e.ListenerReady? || e.Probed? || e.PendingCancelled? || e.TerminalsClosed? || e.PtysClosed? || e.CancelAnswered? || e.CloseAnswered?
    ensures TargetsOk(Next(c, e), dialled)
  {
    if e.TerminalsClosed? {
      assert Good(c, e.id, c.tasks[e.id]);
    }
    hide Inv, TargetsOk;
    match e
    case ListenerReady(id, reusable) => OnListenerOk(c, id, reusable, dialled);
    case Probed(id, answered, connected) => OnProbeOk(c, id, answered, connected, dialled);
    case PendingCancelled(id) => OnPendingOk(c, id, dialled);
    case TerminalsClosed(id) => CloseCurrentOk(c, id, OldClosed, dialled);
    case PtysClosed(id) => OnPtysOk(c, id, dialled);
    case CancelAnswered(id) => OnCancelledOk(c, id, dialled);
    case CloseAnswered(id) => OnClosedOk(c, id, dialled);
  }

  lemma LadderAnswersOk(c: Controller, e: Event, dialled: map<Connection, Host>)
    requires Inv(c) && TargetsOk(c, dialled) && Enabled(c, e)
    requires e.SessionsListed? || e.TerminalAttached? || e.FailedPtysClosed? || e.ScheduleAnswered? || e.GraceAnswered?
    ensures TargetsOk(Next(c, e), dialled)
  {
    if e.FailedPtysClosed? {
      assert Good(c, e.id, c.tasks[e.id]);
    }
    hide Inv, TargetsOk;
    match e
    case SessionsListed(id, listed, still, terminals) => OnSessionsOk(c, id, listed, still, terminals, dialled);
    case TerminalAttached(id, answer) => OnAttachedOk(c, id, answer, dialled);
    case FailedPtysClosed(id) => CloseCurrentOk(c, id, RetryClosed, dialled);
    case ScheduleAnswered(id, scheduled) => OnScheduledOk(c, id, scheduled, dialled);
    case GraceAnswered(id, survived, still) => OnGraceOk(c, id, survived, still, dialled);
  }

  lemma NextOk(c: Controller, e: Event, dialled: map<Connection, Host>)
    requires Inv(c) && TargetsOk(c, dialled)
    ensures TargetsOk(Next(c, e), if e.Returned? && Enabled(c, e) && Dials(c.tasks[e.id].role)
                                  then dialled[e.connection := c.tasks[e.id].role.target] else dialled)
  {
    hide Inv, TargetsOk;
    if Enabled(c, e) {
      match e
      case Returned(id, t, verdict) => ReturnedOk(c, id, t, verdict, dialled);
      case TrustRead(_) => DialAnswersOk(c, e, dialled);
      case DialError(_, _, _) => DialAnswersOk(c, e, dialled);
      case DelayOver(_) => DialAnswersOk(c, e, dialled);
      case GoBackground => BackgroundOk(c, dialled);
      case GoForeground(reconnect, late) => ForegroundOk(c, reconnect, late, dialled);
      case SessionsListed(_, _, _, _) => LadderAnswersOk(c, e, dialled);
      case TerminalAttached(_, _) => LadderAnswersOk(c, e, dialled);
      case FailedPtysClosed(_) => LadderAnswersOk(c, e, dialled);
      case ScheduleAnswered(_, _) => LadderAnswersOk(c, e, dialled);
      case GraceAnswered(_, _, _) => LadderAnswersOk(c, e, dialled);
      case ConnectTo(_, _) => CallersOk(c, e, dialled);
      case Trigger => CallersOk(c, e, dialled);
      case RetryNow => CallersOk(c, e, dialled);
      case CloseAll => CallersOk(c, e, dialled);
      case NativeLost(_) => CallersOk(c, e, dialled);
      case NativeExpired(_) => CallersOk(c, e, dialled);
      case TerminalPhase(_) => CallersOk(c, e, dialled);
      case _ => AnswersOk(c, e, dialled);
    }
  }

  lemma {:induction false} RunTargets(budget: nat, events: seq<Event>)
    ensures TargetsOk(Run(budget, events), DialledFor(budget, events))
  {
    if events != [] {
      hide Inv, TargetsOk, Next, Enabled;
      RunTargets(budget, events[..|events| - 1]);
      RunInv(budget, events[..|events| - 1]);
      NextOk(Run(budget, events[..|events| - 1]), events[|events| - 1], DialledFor(budget, events[..|events| - 1]));
    }
  }

  // ----- what the runs mean -----

  /** The installed connection was dialled for the controller's host. */
  lemma InstalledIsForHost(budget: nat, events: seq<Event>, t: Connection)
    requires Run(budget, events).connection == Some(t)
    ensures t in DialledFor(budget, events) && Run(budget, events).host == Some(DialledFor(budget, events)[t])
  {
    RunTargets(budget, events);
  }

  /** A `connect` that has not been superseded. */
  predicate IsConnect(c: Controller, id: nat, target: Host) {
    id in c.tasks && c.tasks[id].role == Connect(target) && Current(c, c.tasks[id].intent)
  }

  /** It asks the live connection for its state exactly if that was dialled for its own target
      and may carry it; otherwise it goes on to close and dial. */
  lemma ListenerDecides(budget: nat, events: seq<Event>, id: nat, target: Host, reusable: bool)
    requires var c := Run(budget, events); IsConnect(c, id, target) && IsAt(c, id, Listener)
    ensures var c, dialled := Run(budget, events), DialledFor(budget, events);
            var d := Next(c, ListenerReady(id, reusable));
            && d == c.(tasks := d.tasks) && id in d.tasks && d.tasks[id] == c.tasks[id].(at := d.tasks[id].at)
            && (d.tasks[id].at == Probe <==> reusable && exists t :: c.connection == Some(t) && t in dialled && dialled[t] == target)
            && (d.tasks[id].at == Probe || d.tasks[id].at == Terminals)
  {
    RunTargets(budget, events);
    var c := Run(budget, events);
    if c.connection.Some? {
      assert c.connection == Some(c.connection.value);
    }
  }

  /** A live connection to the same host, which may carry the request and answers the probe,
      is the answer, and stays installed. */
  lemma ReusedStays(budget: nat, events: seq<Event>, id: nat, target: Host, t: Connection)
    requires var c := Run(budget, events); IsConnect(c, id, target) && IsAt(c, id, Listener) && c.connection == Some(t)
    requires t in DialledFor(budget, events) && DialledFor(budget, events)[t] == target
    ensures var c := Run(budget, events);
            var asked := Next(c, ListenerReady(id, true));
            var d := Next(asked, Probed(id, true, true));
            IsAt(asked, id, Probe) && d.connection == Some(t) && d.tasks == c.tasks - {id} && d.closed == c.closed && d.returned == c.returned
  {
    RunTargets(budget, events);
    RunInv(budget, events);
    assert Good(Run(budget, events), id, Run(budget, events).tasks[id]);
  }

  /** However its own answers end a `connect` that was not superseded: whatever is installed
      then was dialled for its target. It is what its own dial was given, or what answered the
      probe; after a failure nothing is installed. */
  lemma EndsWithItsOwn(budget: nat, events: seq<Event>, e: Event, id: nat, target: Host)
    requires IsConnect(Run(budget, events), id, target) && Continues(e) == Some(id) && id !in Next(Run(budget, events), e).tasks
    ensures var c, d, dialled := Run(budget, events), Next(Run(budget, events), e), DialledFor(budget, events + [e]);
            && (d.connection.Some? ==> d.connection.value in dialled && dialled[d.connection.value] == target)
            && match e
               case Returned(_, t, verdict) => verdict.None? && d.connection == Some(t)
               case Probed(_, answered, connected) => answered && connected && d.connection == c.connection
               case _ => d.connection.None? && (e.DialError? || e.CloseAnswered?)
  {
    var c := Run(budget, events);
    RunInv(budget, events);
    RunTargets(budget, events);
    assert Good(c, id, c.tasks[id]) && Aims(c, c.tasks[id]);
    assert (events + [e])[..|events|] == events;
    assert DialledFor(budget, events + [e]) == if e.Returned? && Enabled(c, e) && Dials(c.tasks[e.id].role)
                                              then DialledFor(budget, events)[e.connection := c.tasks[e.id].role.target]
                                              else DialledFor(budget, events);
    hide Run, Inv, DialledFor, TargetsOk;
    EndsBy(c, e, id, target);
  }

  lemma EndsBy(c: Controller, e: Event, id: nat, target: Host)
    requires IsConnect(c, id, target) && Good(c, id, c.tasks[id]) && Continues(e) == Some(id) && id !in Next(c, e).tasks
    ensures match e
            case Returned(_, t, verdict) => Enabled(c, e) && verdict.None? && Next(c, e).connection == Some(t)
            case Probed(_, answered, connected) => Enabled(c, e) && answered && connected && Next(c, e).connection == c.connection
            case _ => Next(c, e).connection.None? && (e.DialError? || e.CloseAnswered?)
  {
  }

  // ----- a reuse that answers with nothing -----

  lemma ReachProbing(budget: nat, target: Host) returns (c: Controller)
    ensures Reachable(budget, c) && c.tasks == map[2 := Task(Connect(target), 2, None, Probe)] && c.intent == 2 && !c.disposed
    ensures c.connection == Some(0) && c.phase == Background && c.ladder.None?
  {
    assert Run(budget, []) == Init(budget);
    ReachConnected(budget, Init(budget), target, 0);
    var c1 := Init(budget).(connection := Some(0), host := Some(target), intent := 1, phase := Connected, nextId := 1, returned := {0});
    assert Init(budget).returned + {0} == {0};
    ReachGraceAsked(budget, c1);
    var c2 := c1.(grace := true, tasks := map[1 := Task(Schedule, 0, None, Scheduling)], nextId := 2);
    ReachGranted(budget, c2, 1);
    var c3 := c2.(phase := Background, tasks := map[]);
    assert c2.tasks - {1} == map[];
    Reach(budget, c3, ConnectTo(target, true));
    var c4 := c3.(intent := 2, tasks := map[2 := Task(Connect(target), 2, None, Listener)], nextId := 3);
    Reach(budget, c4, ListenerReady(2, true));
    c := c4.(tasks := map[2 := Task(Connect(target), 2, None, Probe)]);
  }

  /** A connect that asks a connection in the background for its state is told that it lives,
      although the report that its grace ran out came first: it succeeds with nothing installed. */
  lemma ReuseOfNothing(budget: nat, target: Host)
    ensures exists c :: Reachable(budget, c) && IsConnect(c, 2, target) && IsAt(c, 2, Probe) && c.connection.None?
                        && Next(c, Probed(2, true, true)).tasks == map[] && Next(c, Probed(2, true, true)).connection.None?
  {
    var c := ReachProbing(budget, target);
    Reach(budget, c, NativeExpired(0));
    var d := GraceExpired(c, 0);
    assert Next(d, Probed(2, true, true)).tasks == map[];
    assert Reachable(budget, d);
  }
}
