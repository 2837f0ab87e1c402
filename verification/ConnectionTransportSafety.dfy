/** src/connectionController.ts: what the runs mean for the connections and the recovery. */
module ConnectionTransportSafety {
  import opened Collections
  import opened ConnectionTransport
  import opened ConnectionTransportRuns

  /** Every connection a dial was given is installed, held by one closer, closed once or
      expired, whatever happened in which order. */
  lemma Conservation(budget: nat, events: seq<Event>)
    ensures var c := Run(budget, events);
            && (forall t :: Placed(c, t)) && NoDuplicates(c.closed)
            && (forall t | Held(c, t) :: exists id :: Holds(c, id, t) && forall other :: Holds(c, other, t) ==> other == id)
  {
    RunInv(budget, events);
    var c := Run(budget, events);
    forall t | Held(c, t)
      ensures exists id :: Holds(c, id, t) && forall other :: Holds(c, other, t) ==> other == id
    {
      var id :| Holds(c, id, t);
      assert Placed(c, t);
    }
  }

  /** Once nothing is under way, only the installed connection can still be open. */
  lemma NothingLeaks(budget: nat, events: seq<Event>, t: Connection)
    requires Run(budget, events).tasks == map[] && t in Run(budget, events).returned
    ensures var c := Run(budget, events);
            (c.connection == Some(t) && t !in c.closed && t !in c.expired) || (c.connection != Some(t) && (t in c.closed || t in c.expired))
  {
    RunInv(budget, events);
    assert Placed(Run(budget, events), t);
  }

  /** After `close` has run to its end nothing is left open. */
  lemma ClosedForGood(budget: nat, events: seq<Event>)
    requires Run(budget, events).disposed && Run(budget, events).tasks == map[]
    ensures var c := Run(budget, events);
            && c.connection.None? && c.host.None? && c.phase != Reconnecting
            && forall t | t in c.returned :: t in c.closed || t in c.expired
  {
    RunInv(budget, events);
    forall t | t in Run(budget, events).returned
      ensures t in Run(budget, events).closed || t in Run(budget, events).expired
    {
      assert Placed(Run(budget, events), t);
    }
  }

  /** Whether this step puts `t` in as the connection. */
  predicate Installs(c: Controller, e: Event, t: Connection) {
    Next(c, e).connection == Some(t) && c.connection != Some(t)
  }

  lemma InnerKeeps(c: Controller, id: nat, task: Task, after: After)
    ensures AfterClose(c, id, task, after).connection == c.connection && AfterClose(c, id, task, after).budget == c.budget
  {
  }

  lemma ThrowKeeps(c: Controller, id: nat, task: Task, retryable: bool, trust: bool)
    ensures DialThrows(c, id, task, retryable, trust).connection == c.connection
    ensures DialThrows(c, id, task, retryable, trust).budget == c.budget
  {
  }

  /** The answers that take the installed connection out, current or not, are the two that
      close "the current transport" without looking at the intent. */
  lemma AnswersKeep(c: Controller, e: Event)
    requires Enabled(c, e)
    requires e.ListenerReady? || e.Probed? || e.PendingCancelled? || e.PtysClosed? || e.CancelAnswered? || e.CloseAnswered?
             || e.DelayOver? || e.TrustRead? || e.DialError? || e.SessionsListed? || e.TerminalAttached? || e.ScheduleAnswered?
    ensures Next(c, e).connection == c.connection && Next(c, e).budget == c.budget
  {
    match e
    case PtysClosed(id) => InnerKeeps(c, id, c.tasks[id].(held := None), OldClosed);
    case CloseAnswered(id) => InnerKeeps(c, id, c.tasks[id], c.tasks[id].at.after);
    case DialError(id, retryable, trust) => ThrowKeeps(c, id, c.tasks[id], retryable, trust);
    case _ =>
  }

  lemma TakersTake(c: Controller, e: Event)
    requires Enabled(c, e) && (e.TerminalsClosed? || e.FailedPtysClosed? || e.GraceAnswered? || e.Returned?)
    ensures !e.Returned? ==> Next(c, e).connection.None? || Next(c, e).connection == c.connection
    ensures e.TerminalsClosed? || e.FailedPtysClosed? ==> Next(c, e).connection.None?
    ensures Next(c, e).budget == c.budget
  {
    match e
    case TerminalsClosed(id) => InnerKeeps(c.(connection := None), id, c.tasks[id].(held := None), OldClosed);
    case FailedPtysClosed(id) => InnerKeeps(c.(connection := None), id, c.tasks[id].(held := None), RetryClosed);
    case _ =>
  }

  lemma NextBudget(c: Controller, e: Event)
    ensures Next(c, e).budget == c.budget
    ensures !e.Returned? ==> Next(c, e).connection.None? || Next(c, e).connection == c.connection
  {
    if Enabled(c, e) {
      match e
      case ConnectTo(_, _) =>
      case Trigger =>
      case RetryNow =>
      case GoBackground =>
      case GoForeground(_, _) =>
      case CloseAll =>
      case NativeExpired(_) =>
      case NativeLost(_) =>
      case TerminalPhase(_) =>
      case TerminalsClosed(_) => TakersTake(c, e);
      case FailedPtysClosed(_) => TakersTake(c, e);
      case GraceAnswered(_, _, _) => TakersTake(c, e);
      case Returned(_, _, _) => TakersTake(c, e);
      case _ => AnswersKeep(c, e);
    }
  }

  lemma {:induction false} BudgetKept(budget: nat, events: seq<Event>)
    ensures Run(budget, events).budget == budget
  {
    if events != [] {
      BudgetKept(budget, events[..|events| - 1]);
      NextBudget(Run(budget, events[..|events| - 1]), events[|events| - 1]);
    }
  }

  /** A dial installs exactly when its own answer arrives unrefused and its intent is still
      current; then nothing was installed, also on every retry of the ladder. */
  lemma InstallsOnlyCurrent(budget: nat, events: seq<Event>, e: Event, t: Connection)
    ensures var c := Run(budget, events);
            && (Installs(c, e, t) <==>
                  e.Returned? && Enabled(c, e) && e.connection == t && e.verdict.None? && Current(c, c.tasks[e.id].intent))
            && (Installs(c, e, t) ==> c.connection.None? && !c.disposed && t !in c.returned)
  {
    var c := Run(budget, events);
    RunInv(budget, events);
    NextBudget(c, e);
    if e.Returned? && Enabled(c, e) {
      assert Good(c, e.id, c.tasks[e.id]);
      assert Placed(c, t);
    }
  }

  /** One recovery at a time, one current driver, and a ladder dials at most `budget` times. */
  lemma OneRecovery(budget: nat, events: seq<Event>, i: nat, j: nat)
    requires i in Run(budget, events).tasks && j in Run(budget, events).tasks
    ensures var tasks := Run(budget, events).tasks;
            && (tasks[i].role.Ladder? && tasks[j].role.Ladder? ==> i == j)
            && (Mover(tasks[i].role) && Mover(tasks[j].role) && tasks[i].intent == tasks[j].intent ==> i == j)
            && (tasks[i].role.Ladder? && (tasks[i].at.TrustStore? || tasks[i].at.Native?) ==> tasks[i].role.attempt < budget)
  {
    RunInv(budget, events);
    BudgetKept(budget, events);
    assert Good(Run(budget, events), i, Run(budget, events).tasks[i]);
    assert Good(Run(budget, events), j, Run(budget, events).tasks[j]);
  }

  /** A `reconnecting` phase has nothing installed and a task that drives it. */
  lemma ReconnectingEnds(budget: nat, events: seq<Event>)
    requires Run(budget, events).phase == Reconnecting
    ensures Run(budget, events).connection.None? && exists id :: Driving(Run(budget, events), id)
  {
    RunInv(budget, events);
  }

  // ----- runs that show what does not hold -----

  ghost predicate Reachable(budget: nat, c: Controller) {
    exists events :: Run(budget, events) == c
  }

  lemma Reach(budget: nat, c: Controller, e: Event)
    requires Reachable(budget, c)
    ensures Reachable(budget, Next(c, e))
  {
    var events :| Run(budget, events) == c;
    assert (events + [e])[..|events|] == events;
    assert Run(budget, events + [e]) == Next(c, e);
  }

  /** Single steps on the way to the runs. */
  lemma ReachConnect(budget: nat, c: Controller, target: Host)
    requires Reachable(budget, c) && !c.disposed
    ensures Reachable(budget, Put(c.(intent := c.intent + 1, nextId := c.nextId + 1), c.nextId,
                                  Task(Connect(target), c.intent + 1, None, Terminals)))
  {
    var started := StartConnect(c, target, true);
    Reach(budget, c, ConnectTo(target, true));
    Reach(budget, started, ListenerReady(c.nextId, false));
    assert started.tasks[c.nextId := Task(Connect(target), c.intent + 1, None, Terminals)]
        == c.tasks[c.nextId := Task(Connect(target), c.intent + 1, None, Terminals)];
  }

  lemma ReachDial(budget: nat, c: Controller, id: nat, target: Host)
    requires Reachable(budget, c) && id in c.tasks && c.tasks[id] == Task(Connect(target), c.intent, None, Terminals)
    requires !c.disposed && c.connection.None?
    ensures Reachable(budget, StartDial(c.(host := Some(target)), id, c.tasks[id]))
  {
    Reach(budget, c, TerminalsClosed(id));
    assert c.(connection := None) == c && c.tasks[id].(held := None) == c.tasks[id];
  }

  lemma ReachNative(budget: nat, c: Controller, id: nat)
    requires Reachable(budget, c) && IsAt(c, id, TrustStore) && Current(c, c.tasks[id].intent)
    ensures Reachable(budget, Put(c, id, c.tasks[id].(at := Native)))
  {
    Reach(budget, c, TrustRead(id));
  }

  lemma ReachInstall(budget: nat, c: Controller, id: nat, t: Connection)
    requires Reachable(budget, c) && IsAt(c, id, Native) && Current(c, c.tasks[id].intent) && t !in c.returned
    ensures Reachable(budget, Install(c.(returned := c.returned + {t}), id, c.tasks[id], t))
  {
    Reach(budget, c, Returned(id, t, None));
  }

  lemma ReachTaken(budget: nat, c: Controller, id: nat, t: Connection)
    requires Reachable(budget, c) && IsAt(c, id, Terminals) && c.connection == Some(t)
    ensures Reachable(budget, Put(c.(connection := None), id, c.tasks[id].(held := Some(t), at := Cancelling(OldClosed))))
  {
    Reach(budget, c, TerminalsClosed(id));
  }

  lemma ReachHanding(budget: nat, c: Controller, id: nat, t: Connection)
    requires Reachable(budget, c) && IsAt(c, id, Ptys) && c.tasks[id].held == Some(t)
    ensures Reachable(budget, Put(c, id, c.tasks[id].(at := Cancelling(OldClosed))))
  {
    Reach(budget, c, PtysClosed(id));
  }

  lemma ReachHanded(budget: nat, c: Controller, id: nat, t: Connection)
    requires Reachable(budget, c) && IsAt(c, id, Cancelling(OldClosed)) && c.tasks[id].held == Some(t)
    ensures Reachable(budget, Put(c.(closed := c.closed + [t]), id, c.tasks[id].(held := None, at := Closing(OldClosed))))
  {
    Reach(budget, c, CancelAnswered(id));
  }

  lemma ReachAttempt(budget: nat, c: Controller, id: nat)
    requires Reachable(budget, c) && IsAt(c, id, Closing(OldClosed)) && c.tasks[id].role.Ladder?
    requires Current(c, c.tasks[id].intent) && c.budget > 0
    ensures Reachable(budget, StartDial(c, id, c.tasks[id]))
  {
    Reach(budget, c, CloseAnswered(id));
  }

  /** A connect that nothing disturbs installs what its dial is given. */
  lemma ReachConnected(budget: nat, c: Controller, target: Host, t: Connection)
    requires Reachable(budget, c) && !c.disposed && c.connection.None? && t !in c.returned
    requires c.nextId !in c.tasks && c.ladder != Some(c.nextId)
    ensures Reachable(budget, c.(connection := Some(t), host := Some(target), intent := c.intent + 1, phase := Connected,
                                 retryable := true, nextId := c.nextId + 1, returned := c.returned + {t}))
  {
    var id := c.nextId;
    ReachConnect(budget, c, target);
    var ready := Put(c.(intent := c.intent + 1, nextId := id + 1), id, Task(Connect(target), c.intent + 1, None, Terminals));
    ReachDial(budget, ready, id, target);
    var dialling := StartDial(ready.(host := Some(target)), id, ready.tasks[id]);
    ReachNative(budget, dialling, id);
    var asked := Put(dialling, id, dialling.tasks[id].(at := Native));
    ReachInstall(budget, asked, id, t);
    assert asked.tasks - {id} == c.tasks;
  }

  /** A superseded connect closes what the newer one has installed: the close of "the
      current transport" does not look at the intent. */
  lemma StaleConnectCloses(budget: nat, target: Host)
    ensures exists c :: Reachable(budget, c) && c.tasks == map[] && c.intent == 2 && !c.disposed
                        && c.connection.None? && c.closed == [0] && c.phase == Connected
  {
    var c0 := Init(budget);
    assert Run(budget, []) == c0;
    ReachConnect(budget, c0, target);
    var stale := Task(Connect(target), 1, None, Terminals);
    var c1 := Put(c0.(intent := 1, nextId := 1), 0, stale);
    ReachConnected(budget, c1, target, 0);
    var c2 := c1.(connection := Some(0), host := Some(target), intent := 2, phase := Connected, nextId := 2, returned := {0});
    assert c1.returned + {0} == {0};
    ReachTaken(budget, c2, 0, 0);
    var c3 := Put(c2.(connection := None), 0, stale.(held := Some(0), at := Cancelling(OldClosed)));
    ReachHanded(budget, c3, 0, 0);
    var c4 := Put(c3.(closed := c3.closed + [0]), 0, stale.(at := Closing(OldClosed)));
    Reach(budget, c4, CloseAnswered(0));
    assert OnClosed(c4, 0).tasks == map[];
    assert Reachable(budget, OnClosed(c4, 0));
  }

  /** The ladder that recovers connection 0, waiting for its dial. */
  lemma ReachLadder(budget: nat, target: Host) returns (c: Controller)
    requires budget > 0
    ensures Reachable(budget, c) && c.tasks == map[1 := Task(Ladder(target, 0), 2, None, Native)] && c.returned == {0}
    ensures c.ladder == Some(1) && c.intent == 2 && c.nextId == 2 && !c.disposed && c.connection.None?
  {
    assert Run(budget, []) == Init(budget);
    ReachConnected(budget, Init(budget), target, 0);
    var c1 := Init(budget).(connection := Some(0), host := Some(target), intent := 1, phase := Connected, nextId := 1, returned := {0});
    assert Init(budget).returned + {0} == {0};
    Reach(budget, c1, NativeLost(0));
    var c2 := ReconnectAndAttach(c1);
    ReachHanding(budget, c2, 1, 0);
    var c3 := Put(c2, 1, c2.tasks[1].(at := Cancelling(OldClosed)));
    ReachHanded(budget, c3, 1, 0);
    var c4 := Put(c3.(closed := c3.closed + [0]), 1, c3.tasks[1].(held := None, at := Closing(OldClosed)));
    ReachAttempt(budget, c4, 1);
    var c5 := StartDial(c4, 1, c4.tasks[1]);
    ReachNative(budget, c5, 1);
    c := Put(c5, 1, c5.tasks[1].(at := Native));
  }

  /** A lost connection is not recovered while a superseded ladder still waits for its dial:
      the native report joins that ladder, which may no longer install anything. */
  lemma LostIsSwallowed(budget: nat, target: Host)
    requires budget > 0
    ensures exists c :: Reachable(budget, c) && c.connection == Some(1) && c.phase == Connected && !c.disposed
                        && Next(c, NativeLost(1)) == c && forall id | id in c.tasks :: !Current(c, c.tasks[id].intent)
  {
    var c := ReachLadder(budget, target);
    ReachConnected(budget, c, target, 1);
    var d := c.(connection := Some(1), host := Some(target), intent := 3, phase := Connected, retryable := true,
                nextId := 3, returned := c.returned + {1});
    assert Reachable(budget, d) && Next(d, NativeLost(1)) == d;
  }

  lemma ReachGraceAsked(budget: nat, c: Controller)
    requires Reachable(budget, c) && !c.disposed && c.connection.Some?
    ensures Reachable(budget, Spawn(c.(grace := true), Task(Schedule, 0, None, Scheduling)))
  {
    Reach(budget, c, GoBackground);
  }

  lemma ReachGraceCancelled(budget: nat, c: Controller)
    requires Reachable(budget, c) && !c.disposed && c.connection.Some? && c.host.Some? && c.grace
    ensures Reachable(budget, Spawn(c.(grace := false), Task(Foreground(true), 0, None, Grace)))
  {
    Reach(budget, c, GoForeground(true, false));
  }

  lemma ReachSurvived(budget: nat, c: Controller, id: nat)
    requires Reachable(budget, c) && IsAt(c, id, Grace) && c.tasks[id].role.Foreground? && c.ladder.None? && c.phase == Connected
    ensures Reachable(budget, c.(tasks := c.tasks - {id}))
  {
    Reach(budget, c, GraceAnswered(id, true, Connected));
  }

  lemma ReachGranted(budget: nat, c: Controller, id: nat)
    requires Reachable(budget, c) && IsAt(c, id, Scheduling) && c.ladder.None?
    ensures Reachable(budget, c.(phase := Background, tasks := c.tasks - {id}))
  {
    Reach(budget, c, ScheduleAnswered(id, true));
  }

  lemma ReachLateGrace(budget: nat, c: Controller)
    requires Reachable(budget, c) && c.tasks == map[] && c.connection.Some? && c.host.Some? && c.phase == Connected && !c.disposed
    requires c.ladder.None?
    ensures Reachable(budget, c.(grace := false, phase := Background, nextId := c.nextId + 2))
  {
    hide Reachable;
    var schedule, foreground := Task(Schedule, 0, None, Scheduling), Task(Foreground(true), 0, None, Grace);
    ReachGraceAsked(budget, c);
    var asked := c.(grace := true, tasks := map[c.nextId := schedule], nextId := c.nextId + 1);
    assert Spawn(c.(grace := true), schedule) == asked;
    ReachGraceCancelled(budget, asked);
    var back := c.(grace := false, tasks := map[c.nextId := schedule, c.nextId + 1 := foreground], nextId := c.nextId + 2);
    assert Spawn(asked.(grace := false), foreground) == back;
    ReachSurvived(budget, back, c.nextId + 1);
    var settled := back.(tasks := map[c.nextId := schedule]);
    assert back.tasks - {c.nextId + 1} == settled.tasks;
    ReachGranted(budget, settled, c.nextId);
    assert settled.tasks - {c.nextId} == map[];
  }

  /** A grace that is granted only after the app has come back leaves the phase at `background`
      in the foreground, with nothing under way: the loss of the connection is then swallowed. */
  lemma LateGraceSwallows(budget: nat, target: Host)
    ensures exists c :: Reachable(budget, c) && c.connection == Some(0) && c.tasks == map[] && !c.grace && c.ladder.None?
                        && c.phase == Background && Next(c, NativeLost(0)) == c
  {
    assert Run(budget, []) == Init(budget);
    ReachConnected(budget, Init(budget), target, 0);
    assert Init(budget).returned + {0} == {0};
    var c := Init(budget).(connection := Some(0), host := Some(target), intent := 1, phase := Connected, nextId := 1, returned := {0});
    ReachLateGrace(budget, c);
    var d := c.(grace := false, phase := Background, nextId := 3);
    assert Reachable(budget, d) && Next(d, NativeLost(0)) == d;
  }

  // ----- exactly when those happen -----

  /** The suspended call an answer continues. */
  function Continues(e: Event): Option<nat> {
    match e
    case ListenerReady(id, _) => Some(id)
    case Probed(id, _, _) => Some(id)
    case PendingCancelled(id) => Some(id)
    case TerminalsClosed(id) => Some(id)
    case PtysClosed(id) => Some(id)
    case CancelAnswered(id) => Some(id)
    case CloseAnswered(id) => Some(id)
    case DelayOver(id) => Some(id)
    case TrustRead(id) => Some(id)
    case DialError(id, _, _) => Some(id)
    case Returned(id, _, _) => Some(id)
    case SessionsListed(id, _, _, _) => Some(id)
    case TerminalAttached(id, _) => Some(id)
    case FailedPtysClosed(id) => Some(id)
    case ScheduleAnswered(id, _) => Some(id)
    case GraceAnswered(id, _, _) => Some(id)
    case _ => None
  }

  /** A superseded connect or ladder takes the installed connection out exactly when it comes
      to close "the current transport"; nothing else it still does can. */
  lemma SupersededTakesExactly(c: Controller, e: Event, id: nat)
    requires Enabled(c, e) && Continues(e) == Some(id) && id in c.tasks && c.connection.Some?
    requires (c.tasks[id].role.Connect? || c.tasks[id].role.Ladder?) && !Current(c, c.tasks[id].intent)
    ensures Next(c, e).connection != c.connection <==> e.TerminalsClosed? || e.FailedPtysClosed?
  {
    if e.TerminalsClosed? || e.FailedPtysClosed? {
      TakersTake(c, e);
    } else if e.Returned? {
      RefusedKeeps(c, e);
    } else {
      AnswersKeep(c, e);
    }
  }

  lemma RefusedKeeps(c: Controller, e: Event)
    requires Enabled(c, e) && e.Returned? && !Current(c, c.tasks[e.id].intent)
    ensures Next(c, e).connection == c.connection
  {
  }

  /** The answers that take the installed connection out: the two closes of "the current
      transport", and a grace that was not survived, unless its recovery joins another. */
  predicate Closes(c: Controller, e: Event) {
    Enabled(c, e) && match e
    case TerminalsClosed(_) => true
    case FailedPtysClosed(_) => true
    case GraceAnswered(id, survived, _) => !survived && (!c.tasks[id].role.reconnect || (c.ladder.None? && c.host.Some?))
    case _ => false
  }

  /** In every run an answer, current or not, leaves the installed connection in place exactly
      when it is none of those. */
  lemma StaysExactly(budget: nat, events: seq<Event>, e: Event, t: Connection)
    requires Run(budget, events).connection == Some(t) && Continues(e).Some?
    ensures Next(Run(budget, events), e).connection == Some(t) <==> !Closes(Run(budget, events), e)
  {
    RunInv(budget, events);
    StepStays(Run(budget, events), e, t);
  }

  lemma StepStays(c: Controller, e: Event, t: Connection)
    requires Inv(c) && c.connection == Some(t) && Continues(e).Some?
    ensures Next(c, e).connection == Some(t) <==> !Closes(c, e)
  {
    if Enabled(c, e) {
      if e.TerminalsClosed? || e.FailedPtysClosed? {
        TakersTake(c, e);
      } else if e.Returned? {
        assert Good(c, e.id, c.tasks[e.id]);
        RefusedKeeps(c, e);
      } else if e.GraceAnswered? {
        assert Good(c, e.id, c.tasks[e.id]);
      } else {
        AnswersKeep(c, e);
      }
    }
  }

  /** None of those comes up in a continuation of answers. */
  predicate NothingCloses(budget: nat, events: seq<Event>, more: seq<Event>) {
    forall k | 0 <= k < |more| :: Continues(more[k]).Some? && !Closes(Run(budget, events + more[..k]), more[k])
  }

  lemma RunMore(budget: nat, events: seq<Event>, e: Event)
    ensures Run(budget, events + [e]) == Next(Run(budget, events), e)
  {
    assert (events + [e])[..|events|] == events;
  }

  lemma {:induction false} SurvivesSoFar(budget: nat, events: seq<Event>, more: seq<Event>, t: Connection, n: nat)
    requires Run(budget, events).connection == Some(t) && NothingCloses(budget, events, more) && n <= |more|
    ensures Run(budget, events + more[..n]).connection == Some(t)
  {
    hide Next, Closes, Continues;
    if n == 0 {
      assert events + more[..0] == events;
    } else {
      SurvivesSoFar(budget, events, more, t, n - 1);
      var before := events + more[..n - 1];
      assert events + more[..n] == before + [more[n - 1]];
      RunMore(budget, before, more[n - 1]);
      hide Run;
      StaysExactly(budget, before, more[n - 1], t);
    }
  }

  /** So an installed connection survives every such continuation, however many superseded
      calls still finish in it. */
  lemma InstalledSurvives(budget: nat, events: seq<Event>, more: seq<Event>, t: Connection)
    requires Run(budget, events).connection == Some(t) && NothingCloses(budget, events, more)
    ensures Run(budget, events + more).connection == Some(t)
  {
    SurvivesSoFar(budget, events, more, t, |more|);
    assert more[..|more|] == more;
  }

  /** A ladder that recovers from the loss of `t`, current from the start. */
  predicate Recovers(c: Controller, id: nat, t: Connection) {
    id in c.tasks && c.tasks[id].role.Ladder? && Current(c, c.tasks[id].intent) && c.tasks[id].held == Some(t)
  }

  /** The loss of the installed connection starts a recovery exactly when no ladder runs, a
      host is known and the phase is not `background`; otherwise nothing happens at all. The
      phase can outlast the background (`LateGraceSwallows`). */
  lemma LossRecoversExactly(budget: nat, events: seq<Event>, t: Connection)
    requires Run(budget, events).connection == Some(t) && !Run(budget, events).disposed
    ensures var c := Run(budget, events);
            var d := Next(c, NativeLost(t));
            && ((exists id :: Recovers(d, id, t)) <==> c.ladder.None? && c.host.Some? && c.phase != Background)
            && ((exists id :: Recovers(d, id, t)) || d == c)
  {
    RunInv(budget, events);
    var c := Run(budget, events);
    hide Run;
    var d := Next(c, NativeLost(t));
    forall id | id in c.tasks
      ensures c.tasks[id].held != Some(t)
    {
      assert Placed(c, t);
      assert Holds(c, id, t) ==> Held(c, t);
    }
    if c.ladder.None? && c.host.Some? && c.phase != Background {
      assert Recovers(d, c.nextId, t);
    } else {
      assert d == c;
    }
  }
}

