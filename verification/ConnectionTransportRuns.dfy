/** Every run of the controller of src/connectionController.ts: answers arrive in any order,
    and callers, the native side and the terminals may act between any two of them. */
module ConnectionTransportRuns {
  import opened Collections
  import opened ConnectionTransport

  datatype Event =
    | ConnectTo(target: Host, admitted: bool)
    | Trigger
    | RetryNow
    | GoBackground
    | GoForeground(reconnect: bool, late: bool)
    | CloseAll
    | NativeExpired(connection: Connection)
    | NativeLost(connection: Connection)
    | TerminalPhase(phase: Phase)
    | ListenerReady(id: nat, reusable: bool)
    | Probed(id: nat, answered: bool, connected: bool)
    | PendingCancelled(id: nat)
    | TerminalsClosed(id: nat)
    | PtysClosed(id: nat)
    | CancelAnswered(id: nat)
    | CloseAnswered(id: nat)
    | DelayOver(id: nat)
    | TrustRead(id: nat)
    | DialError(id: nat, retryable: bool, trust: bool)
    | Returned(id: nat, connection: Connection, verdict: Option<Refusal>)
    | SessionsListed(id: nat, listed: bool, still: Phase, terminals: bool)
    | TerminalAttached(id: nat, answer: Attached)
    | FailedPtysClosed(id: nat)
    | ScheduleAnswered(id: nat, scheduled: bool)
    | GraceAnswered(id: nat, survived: bool, still: Phase)

  predicate Enabled(c: Controller, e: Event) {
    match e
    case TerminalPhase(phase) => phase != Reconnecting
    case ListenerReady(id, _) => IsAt(c, id, Listener) && c.tasks[id].role.Connect?
    case Probed(id, _, _) => IsAt(c, id, Probe)
    case PendingCancelled(id) => IsAt(c, id, Pending)
    case TerminalsClosed(id) => IsAt(c, id, Terminals)
    case PtysClosed(id) => IsAt(c, id, Ptys)
    case CancelAnswered(id) => id in c.tasks && c.tasks[id].at.Cancelling? && c.tasks[id].held.Some?
    case CloseAnswered(id) => id in c.tasks && c.tasks[id].at.Closing?
    case DelayOver(id) => IsAt(c, id, Delay)
    case TrustRead(id) => IsAt(c, id, TrustStore)
    case DialError(id, _, _) => IsAt(c, id, TrustStore) || IsAt(c, id, Native)
    case Returned(id, connection, verdict) =>
      IsAt(c, id, Native) && connection !in c.returned && verdict != Some(Cancelled)
    case SessionsListed(id, _, still, _) =>
      id in c.tasks && c.tasks[id].at.Sessions? && c.tasks[id].role.Ladder? && still != Reconnecting
    case TerminalAttached(id, answer) => IsAt(c, id, Reattach) && answer != Settled(Reconnecting)
    case FailedPtysClosed(id) => IsAt(c, id, FailedPtys)
    case ScheduleAnswered(id, _) => IsAt(c, id, Scheduling)
    case GraceAnswered(id, _, still) => IsAt(c, id, Grace) && c.tasks[id].role.Foreground? && still != Reconnecting
    case _ => true
  }

  function Next(c: Controller, e: Event): Controller {
    if !Enabled(c, e) then c
    else match e
      case ConnectTo(target, admitted) => StartConnect(c, target, admitted)
      case Trigger => StartReconnect(c)
      case RetryNow => Retry(c)
      case GoBackground => EnterBackground(c)
      case GoForeground(reconnect, late) => EnterForeground(c, reconnect, late)
      case CloseAll => StartClose(c)
      case NativeExpired(connection) => GraceExpired(c, connection)
      case NativeLost(connection) => ConnectionLost(c, connection)
      case TerminalPhase(phase) => c.(phase := phase)
      case ListenerReady(id, reusable) => OnListener(c, id, reusable)
      case Probed(id, answered, connected) => OnProbe(c, id, answered, connected)
      case PendingCancelled(id) => OnPending(c, id)
      case TerminalsClosed(id) => OnTerminals(c, id)
      case PtysClosed(id) => OnPtys(c, id)
      case CancelAnswered(id) => OnCancelled(c, id)
      case CloseAnswered(id) => OnClosed(c, id)
      case DelayOver(id) => OnDelay(c, id)
      case TrustRead(id) => OnTrustStore(c, id)
      case DialError(id, retryable, trust) => OnDialError(c, id, retryable, trust)
      case Returned(id, connection, verdict) => OnReturned(c, id, connection, verdict)
      case SessionsListed(id, listed, still, terminals) => OnSessions(c, id, listed, still, terminals)
      case TerminalAttached(id, answer) => OnAttached(c, id, answer)
      case FailedPtysClosed(id) => OnFailedPtys(c, id)
      case ScheduleAnswered(id, scheduled) => OnScheduled(c, id, scheduled)
      case GraceAnswered(id, survived, still) => OnGrace(c, id, survived, still)
  }

  function Run(budget: nat, events: seq<Event>): Controller {
    if events == [] then Init(budget) else Next(Run(budget, events[..|events| - 1]), events[|events| - 1])
  }

  // ----- the invariant -----

  /** Tasks that took an intent of their own. */
  predicate Mover(role: Role) {
    role.Connect? || role.Ladder? || role.Release? || role.Dispose?
  }

  /** Where a task of each kind can be suspended, and when it still holds a connection. */
  predicate Shape(c: Controller, task: Task) {
    && (task.held.Some? ==> task.at.Ptys? || task.at.Cancelling?)
    && (task.at.Cancelling? ==> task.held.Some?)
    && match task.role
       case Connect(_) =>
         match task.at {
           case Listener | Probe | Terminals | TrustStore | Native => true
           case Cancelling(after) => after != RetryClosed
           case Closing(after) => after != RetryClosed
           case _ => false
         }
       case Ladder(_, attempt) =>
         match task.at {
           case Ptys => attempt == 0
           case Cancelling(after) => if after == OldClosed then attempt == 0 else attempt < c.budget
           case Closing(after) => if after == OldClosed then attempt == 0 else attempt < c.budget
           case Delay | TrustStore | Native | Sessions(_) | Reattach | FailedPtys => attempt < c.budget
           case _ => false
         }
       case Release => task.at == Ptys || task.at == Cancelling(OldClosed) || task.at == Closing(OldClosed)
       case Dispose =>
         task.at == Pending || task.at == Terminals || task.at == Cancelling(OldClosed) || task.at == Closing(OldClosed)
       case Foreground(_) => task.at == Grace
       case Schedule => task.at == Scheduling
  }

  /** A current connect or ladder that has closed what was there, or is dialling. */
  predicate Vacates(task: Task) {
    match task.role
    case Connect(_) => task.at.Cancelling? || task.at.Closing? || task.at.TrustStore? || task.at.Native?
    case Ladder(_, _) => !task.at.Sessions? && !task.at.Reattach? && !task.at.FailedPtys?
    case _ => false
  }

  /** From here a current task leaves a phase of its own. */
  predicate Speaks(task: Task) {
    match task.at
    case Probe | TrustStore | Native | Sessions(_) | Reattach | FailedPtys => true
    case Cancelling(after) => after.ReturnedClosed?
    case Closing(after) => after.ReturnedClosed?
    case _ => false
  }

  predicate Good(c: Controller, id: nat, task: Task) {
    && id < c.nextId && task.intent <= c.intent && Shape(c, task)
    && (task.role.Ladder? <==> c.ladder == Some(id))
    && (Current(c, task.intent) && Mover(task.role) && Vacates(task) ==> c.connection.None?)
    && (Current(c, task.intent) && Mover(task.role) && Speaks(task) ==> c.phase != Reconnecting)
    && (task.role.Dispose? ==> c.disposed)
    && (task.role.Dispose? && (task.at.Cancelling? || task.at.Closing?) ==> c.connection.None?)
  }

  ghost predicate TasksOk(c: Controller) {
    && (forall id | id in c.tasks :: Good(c, id, c.tasks[id]))
    && (c.ladder.Some? ==> c.ladder.value in c.tasks)
  }

  /** Every intent has one driver, and there is one close. */
  ghost predicate OneDriver(c: Controller) {
    forall i, j | i in c.tasks && j in c.tasks && Mover(c.tasks[i].role) && Mover(c.tasks[j].role) ::
      (c.tasks[i].intent == c.tasks[j].intent || (c.tasks[i].role.Dispose? && c.tasks[j].role.Dispose?)) ==> i == j
  }

  predicate Holds(c: Controller, id: nat, connection: Connection) {
    id in c.tasks && c.tasks[id].held == Some(connection)
  }

  ghost predicate Held(c: Controller, connection: Connection) {
    exists id :: Holds(c, id, connection)
  }

  /** A returned connection is in exactly one place: installed, held by exactly one closer,
      handed to a close, or reported expired. */
  ghost predicate Placed(c: Controller, t: Connection) {
    && (t in c.returned <==> c.connection == Some(t) || Held(c, t) || t in c.closed || t in c.expired)
    && (c.connection == Some(t) ==> !Held(c, t) && t !in c.closed && t !in c.expired)
    && (Held(c, t) ==> t !in c.closed && t !in c.expired)
    && (t in c.closed ==> t !in c.expired)
    && forall i, j | Holds(c, i, t) && Holds(c, j, t) :: i == j
  }

  /** So is every connection, and none is handed to a close twice. */
  ghost predicate Conserved(c: Controller) {
    (forall t :: Placed(c, t)) && NoDuplicates(c.closed)
  }

  /** A task of the current intent, or of the disposal, that is still on its way. */
  predicate Driving(c: Controller, id: nat) {
    id in c.tasks && if c.disposed then c.tasks[id].role.Dispose? else Mover(c.tasks[id].role) && c.tasks[id].intent == c.intent
  }

  ghost predicate PhaseOk(c: Controller) {
    c.phase == Reconnecting ==> c.connection.None? && exists id :: Driving(c, id)
  }

  ghost predicate Disposing(c: Controller) {
    exists id :: id in c.tasks && c.tasks[id].role.Dispose?
  }

  ghost predicate DisposedOk(c: Controller) {
    c.disposed ==> Disposing(c) || (c.host.None? && c.connection.None?)
  }

  ghost predicate Inv(c: Controller) {
    TasksOk(c) && OneDriver(c) && Conserved(c) && PhaseOk(c) && DisposedOk(c)
  }

  // ----- one task moves on -----

  function TaskAfter(d: Controller, id: nat): Option<Task> {
    if id in d.tasks then Some(d.tasks[id]) else None
  }

  function HeldAfter(d: Controller, id: nat): Option<Connection> {
    if id in d.tasks then d.tasks[id].held else None
  }

  predicate SameKind(a: Role, b: Role) {
    || (a.Connect? && b.Connect?) || (a.Ladder? && b.Ladder?) || (a.Release? && b.Release?)
    || (a.Dispose? && b.Dispose?) || (a.Foreground? && b.Foreground?) || (a.Schedule? && b.Schedule?)
  }

  /** Task `id` goes on or ends; every other task waits as before. */
  predicate Steps(c: Controller, d: Controller, id: nat) {
    && id in c.tasks
    && d.tasks == (if id in d.tasks then c.tasks[id := d.tasks[id]] else c.tasks - {id})
    && d.nextId == c.nextId && d.intent == c.intent && d.disposed == c.disposed && d.budget == c.budget
    && d.ladder == (if id !in d.tasks && c.ladder == Some(id) then None else c.ladder)
    && (id in d.tasks ==>
          && SameKind(d.tasks[id].role, c.tasks[id].role) && d.tasks[id].intent == c.tasks[id].intent
          && Good(d, id, d.tasks[id]))
    && (d.phase == Reconnecting ==> c.phase == Reconnecting && d.connection.None? && (Driving(c, id) ==> id in d.tasks))
    && (d.connection.None? || d.connection == c.connection || (Current(c, c.tasks[id].intent) && Mover(c.tasks[id].role)))
    && (d.disposed ==> d.host == c.host || d.host.None?)
    && (c.tasks[id].role.Dispose? && id !in d.tasks ==> d.host.None? && d.connection.None?)
  }

  lemma StepsTasks(c: Controller, d: Controller, id: nat)
    requires TasksOk(c) && OneDriver(c) && Steps(c, d, id)
    ensures TasksOk(d) && OneDriver(d)
  {
    assert Good(c, id, c.tasks[id]);
    forall other | other in d.tasks && other != id
      ensures Good(d, other, d.tasks[other])
    {
      assert Good(c, other, c.tasks[other]);
    }
  }

  lemma StepsPhase(c: Controller, d: Controller, id: nat)
    requires TasksOk(c) && PhaseOk(c) && DisposedOk(c) && Steps(c, d, id)
    ensures PhaseOk(d) && DisposedOk(d)
  {
    if d.phase == Reconnecting {
      var driver :| Driving(c, driver);
      assert Driving(d, driver);
    }
    if c.disposed && Disposing(c) {
      var closer :| closer in c.tasks && c.tasks[closer].role.Dispose?;
      assert closer in d.tasks ==> d.tasks[closer].role.Dispose?;
    }
  }

  // ----- where the connections are -----

  /** What a step may do with the connections; no other task's hand moves. */
  datatype Motion = Nothing | Take | Hand | Arrive(connection: Connection) | Settle(connection: Connection)

  predicate Keeps(c: Controller, d: Controller, id: nat, motion: Motion) {
    && id in c.tasks
    && d.tasks == (if id in d.tasks then c.tasks[id := d.tasks[id]] else c.tasks - {id})
    && d.expired == c.expired
    && match motion
       case Nothing =>
         d.connection == c.connection && HeldAfter(d, id) == c.tasks[id].held && d.closed == c.closed && d.returned == c.returned
       case Take =>
         && d.connection.None? && c.tasks[id].held.None? && HeldAfter(d, id) == c.connection
         && d.closed == c.closed && d.returned == c.returned
       case Hand =>
         && d.connection == c.connection && c.tasks[id].held.Some? && HeldAfter(d, id).None?
         && d.closed == c.closed + [c.tasks[id].held.value] && d.returned == c.returned
       case Arrive(t) =>
         && d.connection == c.connection && c.tasks[id].held.None? && HeldAfter(d, id) == Some(t)
         && d.closed == c.closed && t !in c.returned && d.returned == c.returned + {t}
       case Settle(t) =>
         && c.connection.None? && d.connection == Some(t) && c.tasks[id].held.None? && HeldAfter(d, id).None?
         && d.closed == c.closed && t !in c.returned && d.returned == c.returned + {t}
  }

  lemma KeepsHolders(c: Controller, d: Controller, id: nat, motion: Motion, t: Connection)
    requires Keeps(c, d, id, motion)
    ensures forall other | other != id :: Holds(d, other, t) <==> Holds(c, other, t)
    ensures Holds(d, id, t) <==> HeldAfter(d, id) == Some(t)
    ensures Held(d, t) <==> HeldAfter(d, id) == Some(t) || exists other :: other != id && Holds(c, other, t)
    ensures Held(c, t) <==> c.tasks[id].held == Some(t) || exists other :: other != id && Holds(c, other, t)
  {
    assert forall other | other != id :: Holds(d, other, t) <==> Holds(c, other, t);
    if HeldAfter(d, id) == Some(t) {
      assert Holds(d, id, t);
    }
    if c.tasks[id].held == Some(t) {
      assert Holds(c, id, t);
    }
    if other :| other != id && Holds(c, other, t) {
      assert Holds(d, other, t);
    }
  }

  lemma KeepsPlaced(c: Controller, d: Controller, id: nat, motion: Motion, t: Connection)
    requires Conserved(c) && Keeps(c, d, id, motion)
    ensures Placed(d, t)
  {
    KeepsHolders(c, d, id, motion, t);
    assert Placed(c, t);
    assert c.tasks[id].held == Some(t) ==> Holds(c, id, t);
  }

  lemma KeepsConserved(c: Controller, d: Controller, id: nat, motion: Motion)
    requires Conserved(c) && Keeps(c, d, id, motion)
    ensures Conserved(d)
  {
    forall t
      ensures Placed(d, t)
    {
      KeepsPlaced(c, d, id, motion, t);
    }
    if motion == Hand {
      assert Placed(c, c.tasks[id].held.value) && Holds(c, id, c.tasks[id].held.value);
    }
  }

  lemma MoveInv(c: Controller, d: Controller, id: nat, motion: Motion)
    requires Inv(c) && Steps(c, d, id) && Keeps(c, d, id, motion)
    ensures Inv(d)
  {
    StepsTasks(c, d, id);
    StepsPhase(c, d, id);
    KeepsConserved(c, d, id, motion);
  }

  // ----- the pieces of a step -----

  /** `x` is the controller in the middle of a step of task `id`, which holds nothing there. */
  predicate Midway(c: Controller, x: Controller, id: nat, task: Task) {
    && id in c.tasks && task.role == c.tasks[id].role && task.intent == c.tasks[id].intent && task.held.None?
    && x == c.(phase := x.phase, connection := x.connection, host := x.host, retryable := x.retryable, grace := x.grace,
               closed := x.closed, returned := x.returned)
    && (x.phase == Reconnecting ==> c.phase == Reconnecting)
    && (x.connection == c.connection || x.connection.None?)
    && (x.disposed ==> x.host == c.host || x.host.None?)
  }

  /** What such a step makes of it. */
  predicate Finishes(c: Controller, x: Controller, d: Controller, id: nat) {
    && Steps(c, d, id) && HeldAfter(d, id).None?
    && d.connection == x.connection && d.closed == x.closed && d.returned == x.returned && d.expired == c.expired
  }

  lemma EndSteps(c: Controller, x: Controller, id: nat, task: Task)
    requires TasksOk(c) && PhaseOk(c) && Midway(c, x, id, task)
    requires x.phase == Reconnecting ==> !Driving(c, id)
    requires task.role.Dispose? ==> x.host.None? && x.connection.None?
    ensures Finishes(c, x, End(x, id), id)
  {
    assert Good(c, id, c.tasks[id]);
  }

  lemma StartDialSteps(c: Controller, x: Controller, id: nat, task: Task)
    requires TasksOk(c) && PhaseOk(c) && Midway(c, x, id, task) && Current(c, task.intent) && x.connection.None?
    requires task.role.Connect? || (task.role.Ladder? && task.role.attempt < c.budget)
    ensures Finishes(c, x, StartDial(x, id, task), id)
  {
    assert Good(c, id, c.tasks[id]);
  }

  lemma AttemptSteps(c: Controller, x: Controller, id: nat, task: Task, attempt: nat)
    requires TasksOk(c) && PhaseOk(c) && Midway(c, x, id, task) && task.role.Ladder?
    requires Current(c, task.intent) ==> x.connection.None?
    requires attempt == 0 ==> task.role.attempt == 0
    ensures Finishes(c, x, Attempt(x, id, task, attempt), id)
  {
    assert Good(c, id, c.tasks[id]);
    if c.budget <= attempt {
      var given := if Current(x, task.intent) then x.(phase := Lost) else x;
      EndSteps(c, given, id, task);
    } else if attempt == 0 {
      if Current(x, task.intent) {
        StartDialSteps(c, x, id, task);
      } else {
        EndSteps(c, x, id, task);
      }
    }
  }

  /** A task that dialled, and what its phase may not be. */
  predicate Dialled(c: Controller, x: Controller, task: Task) {
    && (task.role.Connect? || task.role.Ladder?)
    && (Current(c, task.intent) ==> x.connection.None?)
  }

  lemma DialFailedSteps(c: Controller, x: Controller, id: nat, task: Task, trust: bool)
    requires TasksOk(c) && PhaseOk(c) && Midway(c, x, id, task) && Dialled(c, x, task)
    requires Current(c, task.intent) ==> x.phase != Reconnecting
    ensures Finishes(c, x, DialFailed(x, id, task, trust), id)
  {
    if !task.role.Ladder? || !Current(x, task.intent) || trust {
      EndSteps(c, x, id, task);
    } else if !x.retryable {
      EndSteps(c, x.(phase := Lost), id, task);
    } else {
      AttemptSteps(c, x, id, task, task.role.attempt + 1);
    }
  }

  lemma DialThrowsSteps(c: Controller, x: Controller, id: nat, task: Task, retryable: bool, trust: bool)
    requires TasksOk(c) && PhaseOk(c) && Midway(c, x, id, task) && Dialled(c, x, task)
    ensures Finishes(c, x, DialThrows(x, id, task, retryable, trust), id)
  {
    if !Current(x, task.intent) {
      DialFailedSteps(c, x, id, task, false);
    } else {
      DialFailedSteps(c, x.(retryable := retryable, phase := if trust then AwaitingTrust else Failed), id, task, trust);
    }
  }

  /** Where a task may be when its connection, if any, has been closed. */
  predicate ClosedAt(c: Controller, x: Controller, task: Task, after: After) {
    match task.role
    case Connect(_) => after != RetryClosed && Dialled(c, x, task) && (after.ReturnedClosed? && Current(c, task.intent) ==> x.phase != Reconnecting)
    case Ladder(_, attempt) =>
      && Dialled(c, x, task) && (after == OldClosed ==> attempt == 0)
      && (after.ReturnedClosed? && Current(c, task.intent) ==> x.phase != Reconnecting)
    case Release => after == OldClosed
    case Dispose => after == OldClosed && x.connection.None?
    case _ => false
  }

  lemma ReturnedSteps(c: Controller, x: Controller, id: nat, task: Task, refusal: Refusal)
    requires TasksOk(c) && PhaseOk(c) && Midway(c, x, id, task) && Dialled(c, x, task)
    requires Current(c, task.intent) ==> x.phase != Reconnecting
    ensures Finishes(c, x, AfterClose(x, id, task, ReturnedClosed(refusal)), id)
  {
    match refusal
    case Untrusted => DialThrowsSteps(c, x, id, task, x.retryable, true);
    case Unusable(retryable) => DialThrowsSteps(c, x, id, task, retryable, false);
    case _ => DialFailedSteps(c, x, id, task, false);
  }

  lemma AfterCloseSteps(c: Controller, x: Controller, id: nat, task: Task, after: After)
    requires TasksOk(c) && PhaseOk(c) && Midway(c, x, id, task) && ClosedAt(c, x, task, after)
    ensures Finishes(c, x, AfterClose(x, id, task, after), id)
  {
    if after.ReturnedClosed? {
      ReturnedSteps(c, x, id, task, after.refusal);
    } else {
      assert Good(c, id, c.tasks[id]);
      match task.role
      case Connect(target) =>
        if Current(x, task.intent) {
          StartDialSteps(c, x.(host := Some(target)), id, task);
        } else {
          EndSteps(c, x, id, task);
        }
      case Ladder(_, attempt) =>
        if after == RetryClosed {
          AttemptSteps(c, x, id, task, attempt + 1);
        } else if Current(x, task.intent) {
          AttemptSteps(c, x, id, task, 0);
        } else {
          EndSteps(c, x, id, task);
        }
      case Release => EndSteps(c, x.(phase := Lost), id, task);
      case Dispose => EndSteps(c, x.(phase := Idle, host := None, grace := false), id, task);
    }
  }

  // ----- every step keeps the invariant -----

  lemma OnClosedInv(c: Controller, id: nat)
    requires Inv(c) && Enabled(c, CloseAnswered(id))
    ensures Inv(OnClosed(c, id))
  {
    var task := c.tasks[id];
    assert Good(c, id, task);
    AfterCloseSteps(c, c, id, task, task.at.after);
    MoveInv(c, OnClosed(c, id), id, Nothing);
  }

  lemma OnCancelledInv(c: Controller, id: nat)
    requires Inv(c) && Enabled(c, CancelAnswered(id))
    ensures Inv(OnCancelled(c, id))
  {
    assert Good(c, id, c.tasks[id]);
    MoveInv(c, OnCancelled(c, id), id, Hand);
  }

  lemma OnPtysInv(c: Controller, id: nat)
    requires Inv(c) && Enabled(c, PtysClosed(id))
    ensures Inv(OnPtys(c, id))
  {
    var task := c.tasks[id];
    assert Good(c, id, task);
    if task.held.None? {
      AfterCloseSteps(c, c, id, task, OldClosed);
    }
    MoveInv(c, OnPtys(c, id), id, Nothing);
  }

  /** `closeCurrentTransport` takes whatever is installed. */
  lemma CloseCurrentInv(c: Controller, id: nat, after: After)
    requires Inv(c) && id in c.tasks && c.tasks[id].held.None?
    requires c.tasks[id].at == Terminals ==> after == OldClosed
    requires c.tasks[id].at == Terminals || (c.tasks[id].at == FailedPtys && after == RetryClosed)
    ensures Inv(CloseCurrent(c, id, c.tasks[id], after))
  {
    var task := c.tasks[id];
    assert Good(c, id, task);
    if c.connection.None? {
      AfterCloseSteps(c, c, id, task, after);
      MoveInv(c, CloseCurrent(c, id, task, after), id, Nothing);
    } else {
      MoveInv(c, CloseCurrent(c, id, task, after), id, Take);
    }
  }

  lemma InstallInv(c: Controller, id: nat, connection: Connection)
    requires Inv(c) && IsAt(c, id, Native) && connection !in c.returned && Current(c, c.tasks[id].intent)
    ensures Inv(Install(c.(returned := c.returned + {connection}), id, c.tasks[id], connection))
  {
    assert Good(c, id, c.tasks[id]);
    MoveInv(c, Install(c.(returned := c.returned + {connection}), id, c.tasks[id], connection), id, Settle(connection));
  }

  lemma RefuseInv(c: Controller, id: nat, connection: Connection, refusal: Refusal)
    requires Inv(c) && IsAt(c, id, Native) && connection !in c.returned
    ensures Inv(HandOver(c.(returned := c.returned + {connection}), id, c.tasks[id], Some(connection), ReturnedClosed(refusal)))
  {
    var r := c.(returned := c.returned + {connection});
    assert Good(c, id, c.tasks[id]);
    MoveInv(c, HandOver(r, id, c.tasks[id], Some(connection), ReturnedClosed(refusal)), id, Arrive(connection));
  }

  lemma OnReturnedInv(c: Controller, id: nat, connection: Connection, verdict: Option<Refusal>)
    requires Inv(c) && IsAt(c, id, Native) && connection !in c.returned && verdict != Some(Cancelled)
    ensures Inv(OnReturned(c, id, connection, verdict))
  {
    if !Current(c, c.tasks[id].intent) {
      RefuseInv(c, id, connection, Cancelled);
    } else if verdict.Some? {
      RefuseInv(c, id, connection, verdict.value);
    } else {
      InstallInv(c, id, connection);
    }
  }

  lemma OnDelayInv(c: Controller, id: nat)
    requires Inv(c) && IsAt(c, id, Delay)
    ensures Inv(OnDelay(c, id))
  {
    var task := c.tasks[id];
    assert Good(c, id, task);
    if Current(c, task.intent) {
      StartDialSteps(c, c, id, task);
    } else {
      EndSteps(c, c, id, task);
    }
    MoveInv(c, OnDelay(c, id), id, Nothing);
  }

  lemma OnTrustStoreInv(c: Controller, id: nat)
    requires Inv(c) && IsAt(c, id, TrustStore)
    ensures Inv(OnTrustStore(c, id))
  {
    assert Good(c, id, c.tasks[id]);
    if !Current(c, c.tasks[id].intent) {
      DialFailedSteps(c, c, id, c.tasks[id], false);
    }
    MoveInv(c, OnTrustStore(c, id), id, Nothing);
  }

  lemma OnDialErrorInv(c: Controller, id: nat, retryable: bool, trust: bool)
    requires Inv(c) && (IsAt(c, id, TrustStore) || IsAt(c, id, Native))
    ensures Inv(OnDialError(c, id, retryable, trust))
  {
    assert Good(c, id, c.tasks[id]);
    DialThrowsSteps(c, c, id, c.tasks[id], retryable, trust);
    MoveInv(c, OnDialError(c, id, retryable, trust), id, Nothing);
  }

  /** A waiting task ends, or goes on without touching a connection. */
  lemma EndInv(c: Controller, x: Controller, id: nat)
    requires Inv(c) && id in c.tasks && c.tasks[id].held.None? && !c.tasks[id].role.Dispose?
    requires x == c.(phase := x.phase) && (x.phase == Reconnecting ==> c.phase == Reconnecting && !Driving(c, id))
    ensures Inv(End(x, id))
  {
    EndSteps(c, x, id, c.tasks[id]);
    MoveInv(c, End(x, id), id, Nothing);
  }

  lemma PutInv(c: Controller, x: Controller, id: nat, task: Task)
    requires Inv(c) && id in c.tasks && c.tasks[id].held.None? && task == c.tasks[id].(at := task.at)
    requires x == c.(phase := x.phase) && (x.phase == Reconnecting ==> c.phase == Reconnecting)
    requires Good(x, id, task)
    ensures Inv(Put(x, id, task))
  {
    MoveInv(c, Put(x, id, task), id, Nothing);
  }

  lemma NoListingInv(c: Controller, id: nat, still: Phase, terminals: bool)
    requires Inv(c) && id in c.tasks && c.tasks[id].at.Sessions? && c.tasks[id].role.Ladder? && still != Reconnecting
    ensures Inv(OnSessions(c, id, false, still, terminals))
  {
    var task := c.tasks[id];
    assert Good(c, id, task);
    var heard := if c.connection == Some(task.at.of) && c.phase != Reconnecting then c.(phase := still) else c;
    EndInv(c, heard, id);
    assert OnSessions(c, id, false, still, terminals) == End(heard, id);
  }

  lemma OnSessionsInv(c: Controller, id: nat, listed: bool, still: Phase, terminals: bool)
    requires Inv(c) && id in c.tasks && c.tasks[id].at.Sessions? && c.tasks[id].role.Ladder? && still != Reconnecting
    ensures Inv(OnSessions(c, id, listed, still, terminals))
  {
    var task := c.tasks[id];
    assert Good(c, id, task);
    if !listed {
      NoListingInv(c, id, still, terminals);
    } else if !Current(c, task.intent) {
      EndInv(c, c, id);
    } else if c.connection.None? {
      AgainInv(c, id);
    } else if terminals {
      PutInv(c, c.(phase := Attaching), id, task.(at := Reattach));
    } else {
      EndInv(c, c.(phase := still), id);
    }
  }

  lemma AgainInv(c: Controller, id: nat)
    requires Inv(c) && id in c.tasks && c.tasks[id].at.Sessions? && c.tasks[id].role.Ladder? && c.connection.None?
    ensures Inv(Attempt(c, id, c.tasks[id], c.tasks[id].role.attempt + 1))
  {
    assert Good(c, id, c.tasks[id]);
    AttemptSteps(c, c, id, c.tasks[id], c.tasks[id].role.attempt + 1);
    MoveInv(c, Attempt(c, id, c.tasks[id], c.tasks[id].role.attempt + 1), id, Nothing);
  }

  lemma OnAttachedInv(c: Controller, id: nat, answer: Attached)
    requires Inv(c) && IsAt(c, id, Reattach) && answer != Settled(Reconnecting)
    ensures Inv(OnAttached(c, id, answer))
  {
    var task := c.tasks[id];
    assert Good(c, id, task);
    if !Current(c, task.intent) {
      EndInv(c, c, id);
    } else if answer.Settled? {
      EndInv(c, c.(phase := answer.phase), id);
    } else if answer.Broken? {
      PutInv(c, c, id, task.(at := FailedPtys));
    }
  }

  lemma OnListenerInv(c: Controller, id: nat, reusable: bool)
    requires Inv(c) && IsAt(c, id, Listener) && c.tasks[id].role.Connect?
    ensures Inv(OnListener(c, id, reusable))
  {
    var task := c.tasks[id];
    assert Good(c, id, task);
    if !Current(c, task.intent) {
      EndInv(c, c, id);
    } else if c.connection.Some? && c.host == Some(task.role.target) && reusable {
      PutInv(c, c, id, task.(at := Probe));
    } else {
      PutInv(c, c, id, task.(at := Terminals));
    }
  }

  lemma OnProbeInv(c: Controller, id: nat, answered: bool, connected: bool)
    requires Inv(c) && IsAt(c, id, Probe)
    ensures Inv(OnProbe(c, id, answered, connected))
  {
    var task := c.tasks[id];
    assert Good(c, id, task);
    if answered && (!Current(c, task.intent) || connected) {
      EndInv(c, c, id);
    } else {
      PutInv(c, c, id, task.(at := Terminals));
    }
  }

  lemma OnPendingInv(c: Controller, id: nat)
    requires Inv(c) && IsAt(c, id, Pending)
    ensures Inv(OnPending(c, id))
  {
    assert Good(c, id, c.tasks[id]);
    PutInv(c, c, id, c.tasks[id].(at := Terminals));
  }

  lemma OnScheduledInv(c: Controller, id: nat, scheduled: bool)
    requires Inv(c) && IsAt(c, id, Scheduling)
    ensures Inv(OnScheduled(c, id, scheduled))
  {
    assert Good(c, id, c.tasks[id]);
    EndInv(c, if scheduled then c.(phase := Background) else c, id);
  }

  // ----- callers -----

  /** A new task that holds nothing yet, with an intent of its own or none. */
  lemma SpawnInv(c: Controller, d: Controller, task: Task)
    requires Inv(c) && d == Spawn(c.(intent := d.intent, grace := d.grace, disposed := d.disposed), task)
    requires task.held.None? && !task.role.Ladder? && Good(d, c.nextId, task)
    requires if Mover(task.role) then d.intent == c.intent + 1 == task.intent else d.intent == c.intent
    requires d.disposed == (c.disposed || task.role.Dispose?) && (task.role.Dispose? ==> !c.disposed)
    requires Mover(task.role) ==> !c.disposed
    ensures Inv(d)
  {
    forall id | id in d.tasks && id != c.nextId
      ensures Good(d, id, d.tasks[id]) && id in c.tasks
    {
      assert Good(c, id, c.tasks[id]);
    }
    assert c.nextId !in c.tasks by {
      assert c.nextId in c.tasks ==> Good(c, c.nextId, c.tasks[c.nextId]);
    }
    SpawnConserved(c, d, task);
    if Mover(task.role) {
      assert Driving(d, c.nextId);
    } else if d.phase == Reconnecting {
      var driver :| Driving(c, driver);
      assert Driving(d, driver);
    }
    if c.disposed && Disposing(c) {
      var closer :| closer in c.tasks && c.tasks[closer].role.Dispose?;
      assert closer in d.tasks && d.tasks[closer].role.Dispose?;
    }
  }

  /** The new task holds what is no longer installed, if anything. */
  lemma SpawnConserved(c: Controller, d: Controller, task: Task)
    requires Conserved(c) && c.nextId !in c.tasks && d.tasks == c.tasks[c.nextId := task]
    requires d.returned == c.returned && d.closed == c.closed && d.expired == c.expired
    requires (d.connection == c.connection && task.held.None?) || (d.connection.None? && task.held == c.connection)
    ensures Conserved(d)
  {
    forall t: Connection
      ensures Placed(d, t)
    {
      assert Placed(c, t);
      assert forall id | id != c.nextId :: Holds(d, id, t) <==> Holds(c, id, t);
      if id :| Holds(c, id, t) {
        assert Holds(d, id, t);
      }
      if task.held == Some(t) {
        assert Holds(d, c.nextId, t);
      }
    }
  }

  /** A ladder or a release takes the connection out as it starts. */
  lemma TakingInv(c: Controller, d: Controller, task: Task)
    requires Inv(c) && (task.role.Ladder? || task.role.Release?) && task.at == Ptys
    requires task == Task(task.role, c.intent + 1, c.connection, Ptys)
    requires d == Spawn(c.(intent := c.intent + 1, grace := d.grace, connection := None, ladder := d.ladder, phase := d.phase), task)
    requires task.role.Ladder? ==> task.role.attempt == 0 && c.ladder.None? && d.ladder == Some(c.nextId)
    requires task.role.Ladder? ==> d.phase == Reconnecting && c.host.Some?
    requires task.role.Release? ==> d.ladder == c.ladder && d.phase == c.phase
    ensures Inv(d)
  {
    forall id | id in d.tasks && id != c.nextId
      ensures Good(d, id, d.tasks[id]) && id in c.tasks
    {
      assert Good(c, id, c.tasks[id]);
    }
    assert c.nextId !in c.tasks by {
      assert c.nextId in c.tasks ==> Good(c, c.nextId, c.tasks[c.nextId]);
    }
    SpawnConserved(c, d, task);
    if c.disposed && Disposing(c) {
      var closer :| closer in c.tasks && c.tasks[closer].role.Dispose?;
      assert Driving(d, closer) && d.tasks[closer].role.Dispose?;
    }
    assert !c.disposed ==> Driving(d, c.nextId);
  }

  lemma ReconnectInv(c: Controller)
    requires Inv(c)
    ensures Inv(ReconnectAndAttach(c)) && Inv(StartReconnect(c)) && Inv(Retry(c))
  {
    if c.ladder.None? && c.host.Some? {
      TakingInv(c, ReconnectAndAttach(c), Task(Ladder(c.host.value, 0), c.intent + 1, c.connection, Ptys));
    }
  }

  lemma ResurfaceInv(c: Controller, reconnect: bool)
    requires Inv(c)
    ensures Inv(Resurface(c, reconnect))
  {
    ReconnectInv(c);
    TakingInv(c, StartRelease(c), Task(Release, c.intent + 1, c.connection, Ptys));
  }

  lemma OnGraceInv(c: Controller, id: nat, survived: bool, still: Phase)
    requires Inv(c) && IsAt(c, id, Grace) && c.tasks[id].role.Foreground? && still != Reconnecting
    ensures Inv(OnGrace(c, id, survived, still))
  {
    assert Good(c, id, c.tasks[id]);
    EndInv(c, if survived then c.(phase := still) else c, id);
    if !survived {
      ResurfaceInv(End(c, id), c.tasks[id].role.reconnect);
    }
  }

  lemma PhaseInv(c: Controller, phase: Phase)
    requires Inv(c) && phase != Reconnecting
    ensures Inv(c.(phase := phase))
  {
    var d := c.(phase := phase);
    assert forall id | id in c.tasks :: Good(c, id, c.tasks[id]) && Good(d, id, d.tasks[id]);
    SameConserved(c, d);
  }

  lemma SameConserved(c: Controller, d: Controller)
    requires Conserved(c)
    requires d == c.(phase := d.phase, grace := d.grace)
    ensures Conserved(d)
  {
    forall t: Connection
      ensures Placed(d, t)
    {
      assert Placed(c, t);
      assert forall id :: Holds(d, id, t) <==> Holds(c, id, t);
      if id :| Holds(c, id, t) {
        assert Holds(d, id, t);
      }
    }
  }

  lemma ExpiredConserved(c: Controller, connection: Connection)
    requires Conserved(c)
    ensures Conserved(GraceExpired(c, connection))
  {
    var d := GraceExpired(c, connection);
    forall t: Connection
      ensures Placed(d, t)
    {
      assert Placed(c, t);
      assert forall id :: Holds(d, id, t) <==> Holds(c, id, t);
      if id :| Holds(c, id, t) {
        assert Holds(d, id, t);
      }
    }
  }

  lemma GraceExpiredInv(c: Controller, connection: Connection)
    requires Inv(c)
    ensures Inv(GraceExpired(c, connection))
  {
    var d := GraceExpired(c, connection);
    assert forall id | id in c.tasks :: Good(c, id, c.tasks[id]) && Good(d, id, d.tasks[id]);
    ExpiredConserved(c, connection);
    if c.phase == Reconnecting {
      var driver :| Driving(c, driver);
      assert Driving(d, driver);
    }
    if c.disposed && Disposing(c) {
      var closer :| closer in c.tasks && c.tasks[closer].role.Dispose?;
      assert closer in d.tasks && d.tasks[closer].role.Dispose?;
    }
  }

  lemma UngracedInv(c: Controller)
    requires Inv(c)
    ensures Inv(c.(grace := false))
  {
    var d := c.(grace := false);
    assert forall id | id in c.tasks :: Good(c, id, c.tasks[id]) && Good(d, id, d.tasks[id]);
    SameConserved(c, d);
    if c.phase == Reconnecting {
      var driver :| Driving(c, driver);
      assert Driving(d, driver);
    }
    if c.disposed && Disposing(c) {
      var closer :| closer in c.tasks && c.tasks[closer].role.Dispose?;
      assert closer in d.tasks && d.tasks[closer].role.Dispose?;
    }
  }

  lemma EnterForegroundInv(c: Controller, reconnect: bool, late: bool)
    requires Inv(c)
    ensures Inv(EnterForeground(c, reconnect, late))
  {
    UngracedInv(c);
    ResurfaceInv(c.(grace := false), reconnect);
    if !c.disposed && c.host.Some? && c.grace && c.connection.Some? && !late {
      SpawnInv(c, EnterForeground(c, reconnect, late), Task(Foreground(reconnect), 0, None, Grace));
    }
  }

  lemma CallerInv(c: Controller, e: Event)
    requires Inv(c) && (e.ConnectTo? || e.GoBackground? || e.CloseAll? || e.NativeLost? || e.RetryNow? || e.Trigger?)
    ensures Inv(Next(c, e))
  {
    ReconnectInv(c);
    if !c.disposed {
      match e
      case ConnectTo(target, admitted) =>
        if admitted {
          SpawnInv(c, StartConnect(c, target, admitted), Task(Connect(target), c.intent + 1, None, Listener));
        }
      case GoBackground =>
        if c.connection.Some? {
          SpawnInv(c, EnterBackground(c), Task(Schedule, 0, None, Scheduling));
        }
      case CloseAll => SpawnInv(c, StartClose(c), Task(Dispose, c.intent + 1, None, Pending));
      case _ =>
    }
  }

  lemma ContinueInv(c: Controller, e: Event)
    requires Inv(c) && Enabled(c, e)
    requires e.ListenerReady? || e.Probed? || e.PendingCancelled? || e.TerminalsClosed? || e.PtysClosed? || e.CancelAnswered?
             || e.CloseAnswered? || e.DelayOver? || e.TrustRead?
    ensures Inv(Next(c, e))
  {
    match e
    case ListenerReady(id, reusable) => OnListenerInv(c, id, reusable);
    case Probed(id, answered, connected) => OnProbeInv(c, id, answered, connected);
    case PendingCancelled(id) => OnPendingInv(c, id);
    case TerminalsClosed(id) =>
      assert Good(c, id, c.tasks[id]);
      CloseCurrentInv(c, id, OldClosed);
    case PtysClosed(id) => OnPtysInv(c, id);
    case CancelAnswered(id) => OnCancelledInv(c, id);
    case CloseAnswered(id) => OnClosedInv(c, id);
    case DelayOver(id) => OnDelayInv(c, id);
    case TrustRead(id) => OnTrustStoreInv(c, id);
  }

  lemma NextInv(c: Controller, e: Event)
    requires Inv(c)
    ensures Inv(Next(c, e))
  {
    if Enabled(c, e) {
      match e
      case TerminalPhase(phase) => PhaseInv(c, phase);
      case NativeExpired(connection) => GraceExpiredInv(c, connection);
      case GoForeground(reconnect, late) => EnterForegroundInv(c, reconnect, late);
      case DialError(id, retryable, trust) => OnDialErrorInv(c, id, retryable, trust);
      case Returned(id, connection, verdict) => OnReturnedInv(c, id, connection, verdict);
      case SessionsListed(id, listed, still, terminals) => OnSessionsInv(c, id, listed, still, terminals);
      case TerminalAttached(id, answer) => OnAttachedInv(c, id, answer);
      case FailedPtysClosed(id) =>
        assert Good(c, id, c.tasks[id]);
        CloseCurrentInv(c, id, RetryClosed);
      case ScheduleAnswered(id, scheduled) => OnScheduledInv(c, id, scheduled);
      case GraceAnswered(id, survived, still) => OnGraceInv(c, id, survived, still);
      case ConnectTo(_, _) => CallerInv(c, e);
      case Trigger => CallerInv(c, e);
      case RetryNow => CallerInv(c, e);
      case GoBackground => CallerInv(c, e);
      case CloseAll => CallerInv(c, e);
      case NativeLost(_) => CallerInv(c, e);
      case _ => ContinueInv(c, e);
    }
  }

  lemma {:induction false} RunInv(budget: nat, events: seq<Event>)
    ensures Inv(Run(budget, events))
  {
    if events == [] {
      assert forall t: Connection :: Placed(Init(budget), t);
    } else {
      RunInv(budget, events[..|events| - 1]);
      NextInv(Run(budget, events[..|events| - 1]), events[|events| - 1]);
    }
  }
}
