/** src/connectionController.ts: the one connection of a controller, its dials and its recovery.

    Every asynchronous method that is suspended at an `await` is a task; the code it runs
    when its answer arrives is one step. Terminals appear only as the awaits they cost and
    as callers of `startReconnect`. */
module ConnectionTransport {
  import opened Collections

  type Host = string

  /** A connection the native side returned, by its generation. */
  type Connection = nat

  datatype Phase =
    | Idle | Connecting | AwaitingTrust | Connected | Listing | Attaching | Live
    | Reconnecting | Background | Lost | Failed

  datatype Role =
    | Connect(target: Host)
    | Ladder(target: Host, attempt: nat)
    | Release
    | Dispose
    | Foreground(reconnect: bool)
    | Schedule

  /** Why a returned connection is not kept. */
  datatype Refusal = Cancelled | StaleAnswer | Unusable(retryable: bool) | Untrusted

  /** What follows once a connection was closed. */
  datatype After = OldClosed | RetryClosed | ReturnedClosed(refusal: Refusal)

  /** The await a task is suspended at. */
  datatype At =
    | Listener | Probe | Terminals
    | Ptys | Cancelling(after: After) | Closing(after: After)
    | Delay | TrustStore | Native
    | Sessions(of: Connection) | Reattach | FailedPtys
    | Pending | Grace | Scheduling

  /** `held` is a connection taken out of the controller and not yet handed to its close. */
  datatype Task = Task(role: Role, intent: nat, held: Option<Connection>, at: At)

  datatype Controller = Controller(
    connection: Option<Connection>, host: Option<Host>, intent: nat, disposed: bool, ladder: Option<nat>,
    phase: Phase, grace: bool, retryable: bool, budget: nat, tasks: map<nat, Task>, nextId: nat,
    returned: set<Connection>, closed: seq<Connection>, expired: set<Connection>)

  function Init(budget: nat): Controller {
    Controller(None, None, 0, false, None, Idle, false, true, budget, map[], 0, {}, [], {})
  }

  predicate Current(c: Controller, intent: nat) {
    !c.disposed && c.intent == intent
  }

  // ----- tasks -----

  function Spawn(c: Controller, task: Task): Controller {
    c.(tasks := c.tasks[c.nextId := task], nextId := c.nextId + 1)
  }

  function Put(c: Controller, id: nat, task: Task): Controller {
    c.(tasks := c.tasks[id := task])
  }

  function End(c: Controller, id: nat): Controller {
    c.(tasks := c.tasks - {id}, ladder := if c.ladder == Some(id) then None else c.ladder)
  }

  // ----- closing -----

  function HandOver(c: Controller, id: nat, task: Task, held: Option<Connection>, after: After): Controller {
    if held.None? then AfterClose(c, id, task.(held := None), after)
    else Put(c, id, task.(held := held, at := Cancelling(after)))
  }

  /** `closeCurrentTransport`. */
  function CloseCurrent(c: Controller, id: nat, task: Task, after: After): Controller {
    HandOver(c.(connection := None), id, task, c.connection, after)
  }

  function AfterClose(c: Controller, id: nat, task: Task, after: After): Controller {
    if after.ReturnedClosed? then
      match after.refusal
      case Untrusted => DialThrows(c, id, task, c.retryable, true)
      case Unusable(retryable) => DialThrows(c, id, task, retryable, false)
      case _ => DialFailed(c, id, task, false)
    else match task.role
      case Connect(target) =>
        if !Current(c, task.intent) then End(c, id) else StartDial(c.(host := Some(target)), id, task)
      case Ladder(_, attempt) =>
        if after == RetryClosed then Attempt(c, id, task, attempt + 1)
        else if !Current(c, task.intent) then End(c, id)
        else Attempt(c, id, task, 0)
      case Release => End(c.(phase := Lost), id)
      case Dispose => End(c.(phase := Idle, host := None, grace := false), id)
      case _ => End(c, id)
  }

  // ----- dialling -----

  function StartDial(c: Controller, id: nat, task: Task): Controller {
    Put(c.(retryable := true, phase := Connecting), id, task.(at := TrustStore))
  }

  /** The head of the ladder's loop. */
  function Attempt(c: Controller, id: nat, task: Task, attempt: nat): Controller {
    if c.budget <= attempt || !task.role.Ladder? then GiveUp(c, id, task)
    else if attempt > 0 then Put(c, id, task.(role := task.role.(attempt := attempt), at := Delay))
    else AttemptNow(c, id, task)
  }

  function AttemptNow(c: Controller, id: nat, task: Task): Controller {
    if !Current(c, task.intent) then End(c, id) else StartDial(c, id, task)
  }

  function GiveUp(c: Controller, id: nat, task: Task): Controller {
    End(if Current(c, task.intent) then c.(phase := Lost) else c, id)
  }

  /** A dial that installed nothing has returned. */
  function DialFailed(c: Controller, id: nat, task: Task, trust: bool): Controller {
    if !task.role.Ladder? || !Current(c, task.intent) || trust then End(c, id)
    else if !c.retryable then GiveUp(c, id, task)
    else Attempt(c, id, task, task.role.attempt + 1)
  }

  function DialThrows(c: Controller, id: nat, task: Task, retryable: bool, trust: bool): Controller {
    if !Current(c, task.intent) then DialFailed(c, id, task, false)
    else DialFailed(c.(retryable := retryable, phase := if trust then AwaitingTrust else Failed), id, task, trust)
  }

  function Install(c: Controller, id: nat, task: Task, connection: Connection): Controller {
    var installed := c.(connection := Some(connection), phase := if task.role.Ladder? then Listing else Connected);
    if task.role.Ladder? then Put(installed, id, task.(at := Sessions(connection))) else End(installed, id)
  }

  // ----- what callers start -----

  /** `connect`; `admitted` is false for a request refused before any effect. */
  function StartConnect(c: Controller, target: Host, admitted: bool): Controller {
    if c.disposed || !admitted then c
    else Spawn(c.(intent := c.intent + 1), Task(Connect(target), c.intent + 1, None, Listener))
  }

  function ReconnectAndAttach(c: Controller): Controller {
    if c.ladder.Some? || c.host.None? then c
    else
      Spawn(c.(intent := c.intent + 1, ladder := Some(c.nextId), connection := None, phase := Reconnecting),
            Task(Ladder(c.host.value, 0), c.intent + 1, c.connection, Ptys))
  }

  function StartReconnect(c: Controller): Controller {
    if c.phase == Background || c.disposed then c else ReconnectAndAttach(c)
  }

  /** `reconnect`; a usable phase leaves a live connection alone. */
  function Retry(c: Controller): Controller {
    if c.disposed || c.phase == Background || (c.connection.Some? && c.phase in {Connected, Listing, Attaching, Live})
    then c
    else ReconnectAndAttach(c)
  }

  function StartRelease(c: Controller): Controller {
    Spawn(c.(intent := c.intent + 1, connection := None), Task(Release, c.intent + 1, c.connection, Ptys))
  }

  function StartClose(c: Controller): Controller {
    if c.disposed then c
    else Spawn(c.(disposed := true, intent := c.intent + 1), Task(Dispose, c.intent + 1, None, Pending))
  }

  function EnterBackground(c: Controller): Controller {
    if c.disposed || c.connection.None? then c
    else Spawn(c.(grace := true), Task(Schedule, 0, None, Scheduling))
  }

  function Resurface(c: Controller, reconnect: bool): Controller {
    if reconnect then ReconnectAndAttach(c) else StartRelease(c)
  }

  function EnterForeground(c: Controller, reconnect: bool, late: bool): Controller {
    if c.disposed then c
    else if c.host.None? || !c.grace then c.(grace := false)
    else if c.connection.None? || late then Resurface(c.(grace := false), reconnect)
    else Spawn(c.(grace := false), Task(Foreground(reconnect), 0, None, Grace))
  }

  /** The native side reports that a connection's grace ran out. */
  function GraceExpired(c: Controller, connection: Connection): Controller {
    if c.connection == Some(connection) && c.phase == Background
    then c.(connection := None, expired := c.expired + {connection})
    else c
  }

  function ConnectionLost(c: Controller, connection: Connection): Controller {
    if c.connection == Some(connection) then StartReconnect(c) else c
  }

  // ----- what answers continue -----

  predicate IsAt(c: Controller, id: nat, at: At) {
    id in c.tasks && c.tasks[id].at == at
  }

  function OnListener(c: Controller, id: nat, reusable: bool): Controller
    requires IsAt(c, id, Listener) && c.tasks[id].role.Connect?
  {
    var task := c.tasks[id];
    if !Current(c, task.intent) then End(c, id)
    else if c.connection.Some? && c.host == Some(task.role.target) && reusable then Put(c, id, task.(at := Probe))
    else Put(c, id, task.(at := Terminals))
  }

  /** `answered` is false when the state could not be read. */
  function OnProbe(c: Controller, id: nat, answered: bool, connected: bool): Controller
    requires IsAt(c, id, Probe)
  {
    var task := c.tasks[id];
    if answered && (!Current(c, task.intent) || connected) then End(c, id) else Put(c, id, task.(at := Terminals))
  }

  function OnPending(c: Controller, id: nat): Controller
    requires IsAt(c, id, Pending)
  {
    Put(c, id, c.tasks[id].(at := Terminals))
  }

  function OnTerminals(c: Controller, id: nat): Controller
    requires IsAt(c, id, Terminals)
  {
    CloseCurrent(c, id, c.tasks[id], OldClosed)
  }

  function OnPtys(c: Controller, id: nat): Controller
    requires IsAt(c, id, Ptys)
  {
    HandOver(c, id, c.tasks[id], c.tasks[id].held, OldClosed)
  }

  /** The cancel is answered: the connection goes to `closeConnection`. */
  function OnCancelled(c: Controller, id: nat): Controller
    requires id in c.tasks && c.tasks[id].at.Cancelling? && c.tasks[id].held.Some?
  {
    var task := c.tasks[id];
    Put(c.(closed := c.closed + [task.held.value]), id, task.(held := None, at := Closing(task.at.after)))
  }

  function OnClosed(c: Controller, id: nat): Controller
    requires id in c.tasks && c.tasks[id].at.Closing?
  {
    AfterClose(c, id, c.tasks[id], c.tasks[id].at.after)
  }

  function OnDelay(c: Controller, id: nat): Controller
    requires IsAt(c, id, Delay)
  {
    AttemptNow(c, id, c.tasks[id])
  }

  function OnTrustStore(c: Controller, id: nat): Controller
    requires IsAt(c, id, TrustStore)
  {
    var task := c.tasks[id];
    if !Current(c, task.intent) then DialFailed(c, id, task, false) else Put(c, id, task.(at := Native))
  }

  /** The trust store or the native dial fails. */
  function OnDialError(c: Controller, id: nat, retryable: bool, trust: bool): Controller
    requires IsAt(c, id, TrustStore) || IsAt(c, id, Native)
  {
    DialThrows(c, id, c.tasks[id], retryable, trust)
  }

  /** `verdict` is what the answer's own checks say, if they refuse it. */
  function OnReturned(c: Controller, id: nat, connection: Connection, verdict: Option<Refusal>): Controller
    requires IsAt(c, id, Native) && connection !in c.returned && verdict != Some(Cancelled)
  {
    var task := c.tasks[id];
    var r := c.(returned := c.returned + {connection});
    if !Current(c, task.intent) then HandOver(r, id, task, Some(connection), ReturnedClosed(Cancelled))
    else if verdict.Some? then HandOver(r, id, task, Some(connection), ReturnedClosed(verdict.value))
    else Install(r, id, task, connection)
  }

  /** The host listing a ladder asks its new connection for; `still` is the phase of the terminals left. */
  function OnSessions(c: Controller, id: nat, listed: bool, still: Phase, terminals: bool): Controller
    requires id in c.tasks && c.tasks[id].at.Sessions? && c.tasks[id].role.Ladder? && still != Reconnecting
  {
    var task := c.tasks[id];
    var heard := if !listed && c.connection == Some(task.at.of) && c.phase != Reconnecting then c.(phase := still) else c;
    if !Current(c, task.intent) then End(heard, id)
    else if !listed then
      if heard.phase == Reconnecting then Attempt(heard, id, task, task.role.attempt + 1) else End(heard, id)
    else if c.connection.None? then Attempt(c, id, task, task.role.attempt + 1)
    else if terminals then Put(c.(phase := Attaching), id, task.(at := Reattach))
    else End(c.(phase := still), id)
  }

  datatype Attached = More | Settled(phase: Phase) | Broken

  function OnAttached(c: Controller, id: nat, answer: Attached): Controller
    requires IsAt(c, id, Reattach) && answer != Settled(Reconnecting)
  {
    var task := c.tasks[id];
    if !Current(c, task.intent) then End(c, id)
    else match answer
      case More => c
      case Settled(phase) => End(c.(phase := phase), id)
      case Broken => Put(c, id, task.(at := FailedPtys))
  }

  function OnFailedPtys(c: Controller, id: nat): Controller
    requires IsAt(c, id, FailedPtys)
  {
    CloseCurrent(c, id, c.tasks[id], RetryClosed)
  }

  function OnScheduled(c: Controller, id: nat, scheduled: bool): Controller
    requires IsAt(c, id, Scheduling)
  {
    End(if scheduled then c.(phase := Background) else c, id)
  }

  /** `survived` when the grace was cancelled in time and the connection still answers. */
  function OnGrace(c: Controller, id: nat, survived: bool, still: Phase): Controller
    requires IsAt(c, id, Grace) && c.tasks[id].role.Foreground? && still != Reconnecting
  {
    if survived then End(c.(phase := still), id) else Resurface(End(c, id), c.tasks[id].role.reconnect)
  }

  // ----- the controller -----

  class ConnectionController {
    var connection: Option<Connection>
    var host: Option<Host>
    var connectIntent: nat
    var disposed: bool
    var reconnectTask: Option<nat>
    var phase: Phase
    var grace: bool
    var lastDialRetryable: bool
    const budget: nat
    var tasks: map<nat, Task>
    var nextId: nat

    // What the native side was told and told us.
    ghost var returned: set<Connection>
    ghost var closed: seq<Connection>
    ghost var expired: set<Connection>

    ghost function State(): Controller
      reads this
    {
      Controller(connection, host, connectIntent, disposed, reconnectTask, phase, grace, lastDialRetryable, budget,
                 tasks, nextId, returned, closed, expired)
    }

    constructor (budget: nat)
      ensures State() == Init(budget)
    {
      this.budget := budget;
      connection, host, connectIntent, disposed, reconnectTask := None, None, 0, false, None;
      phase, grace, lastDialRetryable := Idle, false, true;
      tasks, nextId := map[], 0;
      returned, closed, expired := {}, [], {};
    }

    predicate IsCurrentConnect(intent: nat)
      reads this
      ensures IsCurrentConnect(intent) <==> Current(State(), intent)
    {
      !disposed && connectIntent == intent
    }

    method Suspend(task: Task)
      modifies this`tasks, this`nextId
      ensures State() == Spawn(old(State()), task)
    {
      tasks := tasks[nextId := task];
      nextId := nextId + 1;
    }

    method Await(id: nat, task: Task)
      modifies this`tasks
      ensures State() == Put(old(State()), id, task)
    {
      tasks := tasks[id := task];
    }

    method Finish(id: nat)
      modifies this`tasks, this`reconnectTask
      ensures State() == End(old(State()), id)
    {
      tasks := tasks - {id};
      if reconnectTask == Some(id) {
        reconnectTask := None;
      }
    }

    method CloseHeld(id: nat, task: Task, held: Option<Connection>, after: After)
      modifies this
      ensures State() == HandOver(old(State()), id, task, held, after)
    {
      if held.None? {
        AfterClosing(id, task.(held := None), after);
      } else {
        Await(id, task.(held := held, at := Cancelling(after)));
      }
    }

    method CloseCurrentTransport(id: nat, task: Task, after: After)
      modifies this
      ensures State() == CloseCurrent(old(State()), id, task, after)
    {
      var taken := connection;
      connection := None;
      CloseHeld(id, task, taken, after);
    }

    method AfterClosing(id: nat, task: Task, after: After)
      modifies this
      ensures State() == AfterClose(old(State()), id, task, after)
    {
      if after.ReturnedClosed? {
        RefusedIsClosed(id, task, after.refusal);
        return;
      }
      match task.role
      case Connect(target) =>
        if IsCurrentConnect(task.intent) {
          host := Some(target);
          Dial(id, task);
        } else {
          Finish(id);
        }
      case Ladder(_, attempt) =>
        if after == RetryClosed {
          NextAttempt(id, task, attempt + 1);
        } else if IsCurrentConnect(task.intent) {
          NextAttempt(id, task, 0);
        } else {
          Finish(id);
        }
      case Release =>
        phase := Lost;
        Finish(id);
      case Dispose =>
        phase, host, grace := Idle, None, false;
        Finish(id);
      case _ =>
        Finish(id);
    }

    method RefusedIsClosed(id: nat, task: Task, refusal: Refusal)
      modifies this
      ensures State() == AfterClose(old(State()), id, task, ReturnedClosed(refusal))
    {
      match refusal
      case Untrusted => DialThrew(id, task, lastDialRetryable, true);
      case Unusable(retryable) => DialThrew(id, task, retryable, false);
      case _ => DialReturned(id, task, false);
    }

    method Dial(id: nat, task: Task)
      modifies this
      ensures State() == StartDial(old(State()), id, task)
    {
      lastDialRetryable, phase := true, Connecting;
      Await(id, task.(at := TrustStore));
    }

    method NextAttempt(id: nat, task: Task, attempt: nat)
      modifies this
      ensures State() == Attempt(old(State()), id, task, attempt)
    {
      if budget <= attempt || !task.role.Ladder? {
        LadderGivesUp(id, task);
      } else if attempt > 0 {
        Await(id, task.(role := task.role.(attempt := attempt), at := Delay));
      } else {
        DialIfCurrent(id, task);
      }
    }

    method DialIfCurrent(id: nat, task: Task)
      modifies this
      ensures State() == AttemptNow(old(State()), id, task)
    {
      if IsCurrentConnect(task.intent) {
        Dial(id, task);
      } else {
        Finish(id);
      }
    }

    method LadderGivesUp(id: nat, task: Task)
      modifies this
      ensures State() == GiveUp(old(State()), id, task)
    {
      if IsCurrentConnect(task.intent) {
        phase := Lost;
      }
      Finish(id);
    }

    method DialReturned(id: nat, task: Task, trust: bool)
      modifies this
      ensures State() == DialFailed(old(State()), id, task, trust)
    {
      if !task.role.Ladder? || !IsCurrentConnect(task.intent) || trust {
        Finish(id);
      } else if !lastDialRetryable {
        LadderGivesUp(id, task);
      } else {
        NextAttempt(id, task, task.role.attempt + 1);
      }
    }

    method DialThrew(id: nat, task: Task, retryable: bool, trust: bool)
      modifies this
      ensures State() == DialThrows(old(State()), id, task, retryable, trust)
    {
      if !IsCurrentConnect(task.intent) {
        DialReturned(id, task, false);
      } else {
        lastDialRetryable := retryable;
        phase := if trust then AwaitingTrust else Failed;
        DialReturned(id, task, trust);
      }
    }

    method Connect(target: Host, admitted: bool)
      modifies this
      ensures State() == StartConnect(old(State()), target, admitted)
    {
      if !disposed && admitted {
        connectIntent := connectIntent + 1;
        Suspend(Task(Role.Connect(target), connectIntent, None, Listener));
      }
    }

    method Reattach()
      modifies this
      ensures State() == ReconnectAndAttach(old(State()))
    {
      if reconnectTask.Some? || host.None? {
        return;
      }
      var taken := connection;
      connectIntent := connectIntent + 1;
      reconnectTask := Some(nextId);
      connection, phase := None, Reconnecting;
      Suspend(Task(Ladder(host.value, 0), connectIntent, taken, Ptys));
    }

    method StartRecovery()
      modifies this
      ensures State() == StartReconnect(old(State()))
    {
      if phase != Background && !disposed {
        Reattach();
      }
    }

    method Reconnect()
      modifies this
      ensures State() == Retry(old(State()))
    {
      var usable := connection.Some? && phase in {Connected, Listing, Attaching, Live};
      if !disposed && phase != Background && !usable {
        Reattach();
      }
    }

    method ReleaseSpentConnection()
      modifies this
      ensures State() == StartRelease(old(State()))
    {
      var taken := connection;
      connection := None;
      connectIntent := connectIntent + 1;
      Suspend(Task(Release, connectIntent, taken, Ptys));
    }

    method Close()
      modifies this
      ensures State() == StartClose(old(State()))
    {
      if !disposed {
        disposed := true;
        connectIntent := connectIntent + 1;
        Suspend(Task(Dispose, connectIntent, None, Pending));
      }
    }

    method GoToBackground()
      modifies this
      ensures State() == EnterBackground(old(State()))
    {
      if !disposed && connection.Some? {
        grace := true;
        Suspend(Task(Schedule, 0, None, Scheduling));
      }
    }

    method ReconnectOrRelease(reconnect: bool)
      modifies this
      ensures State() == Resurface(old(State()), reconnect)
    {
      if reconnect {
        Reattach();
      } else {
        ReleaseSpentConnection();
      }
    }

    method ReturnToForeground(reconnect: bool, late: bool)
      modifies this
      ensures State() == EnterForeground(old(State()), reconnect, late)
    {
      if disposed {
        return;
      }
      var due := grace;
      grace := false;
      if host.None? || !due {
        return;
      }
      if connection.None? || late {
        ReconnectOrRelease(reconnect);
      } else {
        Suspend(Task(Foreground(reconnect), 0, None, Grace));
      }
    }

    method OnGraceExpired(of: Connection)
      modifies this
      ensures State() == GraceExpired(old(State()), of)
    {
      if connection == Some(of) && phase == Background {
        connection := None;
        expired := expired + {of};
      }
    }

    method OnLost(of: Connection)
      modifies this
      ensures State() == ConnectionLost(old(State()), of)
    {
      if connection == Some(of) {
        StartRecovery();
      }
    }

    method ListenerIsReady(id: nat, reusable: bool)
      requires IsAt(State(), id, Listener) && tasks[id].role.Connect?
      modifies this
      ensures State() == OnListener(old(State()), id, reusable)
    {
      var task := tasks[id];
      if !IsCurrentConnect(task.intent) {
        Finish(id);
      } else if connection.Some? && host == Some(task.role.target) && reusable {
        Await(id, task.(at := Probe));
      } else {
        Await(id, task.(at := Terminals));
      }
    }

    method StateIsRead(id: nat, answered: bool, connected: bool)
      requires IsAt(State(), id, Probe)
      modifies this
      ensures State() == OnProbe(old(State()), id, answered, connected)
    {
      var task := tasks[id];
      if answered && (!IsCurrentConnect(task.intent) || connected) {
        Finish(id);
      } else {
        Await(id, task.(at := Terminals));
      }
    }

    method PendingIsCancelled(id: nat)
      requires IsAt(State(), id, Pending)
      modifies this
      ensures State() == OnPending(old(State()), id)
    {
      Await(id, tasks[id].(at := Terminals));
    }

    method TerminalsAreClosed(id: nat)
      requires IsAt(State(), id, Terminals)
      modifies this
      ensures State() == OnTerminals(old(State()), id)
    {
      CloseCurrentTransport(id, tasks[id], OldClosed);
    }

    method PtysAreClosed(id: nat)
      requires IsAt(State(), id, Ptys)
      modifies this
      ensures State() == OnPtys(old(State()), id)
    {
      CloseHeld(id, tasks[id], tasks[id].held, OldClosed);
    }

    method CancelIsAnswered(id: nat)
      requires id in tasks && tasks[id].at.Cancelling? && tasks[id].held.Some?
      modifies this
      ensures State() == OnCancelled(old(State()), id)
    {
      var task := tasks[id];
      closed := closed + [task.held.value];
      Await(id, task.(held := None, at := Closing(task.at.after)));
    }

    method CloseIsAnswered(id: nat)
      requires id in tasks && tasks[id].at.Closing?
      modifies this
      ensures State() == OnClosed(old(State()), id)
    {
      AfterClosing(id, tasks[id], tasks[id].at.after);
    }

    method DelayIsOver(id: nat)
      requires IsAt(State(), id, Delay)
      modifies this
      ensures State() == OnDelay(old(State()), id)
    {
      DialIfCurrent(id, tasks[id]);
    }

    method TrustIsRead(id: nat)
      requires IsAt(State(), id, TrustStore)
      modifies this
      ensures State() == OnTrustStore(old(State()), id)
    {
      var task := tasks[id];
      if IsCurrentConnect(task.intent) {
        Await(id, task.(at := Native));
      } else {
        DialReturned(id, task, false);
      }
    }

    method DialFails(id: nat, retryable: bool, trust: bool)
      requires IsAt(State(), id, TrustStore) || IsAt(State(), id, Native)
      modifies this
      ensures State() == OnDialError(old(State()), id, retryable, trust)
    {
      DialThrew(id, tasks[id], retryable, trust);
    }

    method ConnectReturns(id: nat, connected: Connection, verdict: Option<Refusal>)
      requires IsAt(State(), id, Native) && connected !in returned && verdict != Some(Cancelled)
      modifies this
      ensures State() == OnReturned(old(State()), id, connected, verdict)
    {
      var task := tasks[id];
      returned := returned + {connected};
      if !IsCurrentConnect(task.intent) {
        CloseHeld(id, task, Some(connected), ReturnedClosed(Cancelled));
      } else if verdict.Some? {
        CloseHeld(id, task, Some(connected), ReturnedClosed(verdict.value));
      } else {
        connection := Some(connected);
        if task.role.Ladder? {
          phase := Listing;
          Await(id, task.(at := Sessions(connected)));
        } else {
          phase := Connected;
          Finish(id);
        }
      }
    }

    method ListingFails(id: nat, still: Phase, terminals: bool)
      requires id in tasks && tasks[id].at.Sessions? && tasks[id].role.Ladder? && still != Reconnecting
      modifies this
      ensures State() == OnSessions(old(State()), id, false, still, terminals)
    {
      var task := tasks[id];
      if connection == Some(task.at.of) && phase != Reconnecting {
        phase := still;
      }
      if IsCurrentConnect(task.intent) && phase == Reconnecting {
        NextAttempt(id, task, task.role.attempt + 1);
      } else {
        Finish(id);
      }
    }

    method SessionsAreListed(id: nat, listed: bool, still: Phase, terminals: bool)
      requires id in tasks && tasks[id].at.Sessions? && tasks[id].role.Ladder? && still != Reconnecting
      modifies this
      ensures State() == OnSessions(old(State()), id, listed, still, terminals)
    {
      var task := tasks[id];
      if !listed {
        ListingFails(id, still, terminals);
      } else if !IsCurrentConnect(task.intent) {
        Finish(id);
      } else if connection.None? {
        NextAttempt(id, task, task.role.attempt + 1);
      } else if terminals {
        phase := Attaching;
        Await(id, task.(at := At.Reattach));
      } else {
        phase := still;
        Finish(id);
      }
    }

    method TerminalIsAttached(id: nat, answer: Attached)
      requires IsAt(State(), id, At.Reattach) && answer != Settled(Reconnecting)
      modifies this
      ensures State() == OnAttached(old(State()), id, answer)
    {
      var task := tasks[id];
      if !IsCurrentConnect(task.intent) {
        Finish(id);
        return;
      }
      match answer
      case More =>
      case Settled(settled) =>
        phase := settled;
        Finish(id);
      case Broken => Await(id, task.(at := FailedPtys));
    }

    method FailedPtysAreClosed(id: nat)
      requires IsAt(State(), id, FailedPtys)
      modifies this
      ensures State() == OnFailedPtys(old(State()), id)
    {
      CloseCurrentTransport(id, tasks[id], RetryClosed);
    }

    method ScheduleIsAnswered(id: nat, scheduled: bool)
      requires IsAt(State(), id, Scheduling)
      modifies this
      ensures State() == OnScheduled(old(State()), id, scheduled)
    {
      if scheduled {
        phase := Background;
      }
      Finish(id);
    }

    method GraceIsAnswered(id: nat, survived: bool, still: Phase)
      requires IsAt(State(), id, Grace) && tasks[id].role.Foreground? && still != Reconnecting
      modifies this
      ensures State() == OnGrace(old(State()), id, survived, still)
    {
      var reconnect := tasks[id].role.reconnect;
      if survived {
        phase := still;
        Finish(id);
      } else {
        Finish(id);
        ReconnectOrRelease(reconnect);
      }
    }
  }
}
