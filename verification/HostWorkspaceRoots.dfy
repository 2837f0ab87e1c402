/** src/hostWorkspaceRoots.ts: one host's registered workspace roots.

    A call suspended at an `await` is a task; the code it runs when its answer arrives is
    one step. `Client` is everything the controller remembers between steps, and the
    functions on it specify the steps; the class below is the controller itself. */
module HostWorkspaceRoots {
  import opened Collections

  type HostId = string
  type Path = string

  /** A host's registrations. Paths stand for their resolved keys. */
  type Registrations = set<Path>

  datatype Selection = Selection(host: HostId, previousRoots: Option<seq<Path>>)

  datatype Status = Idle | Loading | Ready | Error

  /** One registration change holding the lock. */
  datatype Operation = Operation(epoch: nat, id: nat)

  datatype Action = Add(path: Path) | Remove(path: Path)

  /** A mutation writes its own answer; a restore adds the missing roots one by one. */
  datatype Purpose = Mutation | Restore(remaining: seq<Path>, latest: Registrations)

  datatype Wait =
    | Listing(epoch: nat, generation: nat, sequence: nat, selection: Selection)
    | Change(operation: Operation, selection: Selection, action: Action, purpose: Purpose)

  /** `superseded` are the changes whose end waits for this call, innermost first. */
  datatype Task = Task(wait: Wait, superseded: seq<Operation>)

  datatype Client = Client(
    epoch: nat, generation: nat, operation: Option<Operation>, listSequence: nat,
    restoreDue: bool, relistAfterOperation: bool,
    selection: Option<Selection>, status: Status, memberships: Option<Registrations>, mutating: bool,
    restored: set<HostId>, allRestored: bool, ledgerError: bool, ledgerErrorShown: bool,
    tasks: map<nat, Task>, nextId: nat)

  function Init(restored: set<HostId>, allRestored: bool, ledgerError: bool): Client {
    Client(0, 0, None, 0, false, false, None, Idle, None, false, restored, allRestored, ledgerError, false, map[], 0)
  }

  /** The ledger's `has`; a record that could not be read counts for every host. */
  predicate AlreadyRestored(c: Client, host: HostId) {
    c.ledgerError || c.allRestored || host in c.restored
  }

  predicate Busy(c: Client) {
    c.operation.Some? && c.operation.value.epoch == c.epoch
  }

  // ----- the steps -----

  function Suspend(c: Client, task: Task): Client {
    c.(tasks := c.tasks[c.nextId := task], nextId := c.nextId + 1)
  }

  function SendListing(c: Client, superseded: seq<Operation>): Client
    decreases |superseded|, 1
  {
    if c.selection.None? then Finish(c, superseded)
    else
      var sent := c.(listSequence := c.listSequence + 1, status := Loading);
      Suspend(sent, Task(Listing(c.epoch, c.generation, sent.listSequence, c.selection.value), superseded))
  }

  /** The `finally` blocks of the changes that waited for a finished call. */
  function Finish(c: Client, superseded: seq<Operation>): Client
    decreases |superseded|, 0
  {
    if superseded == [] then c else EndChange(c, superseded[0], superseded[1..])
  }

  function EndChange(c: Client, operation: Operation, superseded: seq<Operation>): Client
    decreases |superseded|, 3
  {
    var ended := c.(generation := c.generation + 1,
                    operation := if c.operation == Some(operation) then None else c.operation);
    if operation.epoch == c.epoch then FlushRelist(ended.(mutating := false), superseded)
    else Finish(ended, superseded)
  }

  function FlushRelist(c: Client, superseded: seq<Operation>): Client
    decreases |superseded|, 2
  {
    if !c.relistAfterOperation || Busy(c) then Finish(c, superseded)
    else SendListing(c.(relistAfterOperation := false), superseded)
  }

  function SettleSuperseded(c: Client, selection: Selection, superseded: seq<Operation>): Client {
    if c.selection.None? || c.selection.value.host != selection.host then Finish(c, superseded)
    else if Busy(c) then Finish(c.(relistAfterOperation := true), superseded)
    else SendListing(c, superseded)
  }

  function StartChange(c: Client, selection: Selection, action: Action, purpose: Purpose, superseded: seq<Operation>): Client {
    var operation := Operation(c.epoch, c.nextId);
    Suspend(c.(operation := Some(operation), generation := c.generation + 1, mutating := true),
            Task(Change(operation, selection, action, purpose), superseded))
  }

  function RestorePrevious(c: Client, selection: Selection, listed: Registrations, superseded: seq<Operation>): Client {
    if selection.previousRoots.None? then Finish(c, superseded)
    else if c.ledgerError && !c.ledgerErrorShown then Finish(c.(ledgerErrorShown := true), superseded)
    else if AlreadyRestored(c, selection.host) then Finish(c, superseded)
    else
      var missing := Filter(selection.previousRoots.value, path => path !in listed);
      if missing == [] then Finish(c.(restored := c.restored + {selection.host}), superseded)
      else StartChange(c, selection, Add(missing[0]), Restore(missing[1..], listed), superseded)
  }

  function Refresh(c: Client): Client {
    if c.selection.None? then c else SendListing(c.(restoreDue := true), [])
  }

  /** Another host, or none, resets every host-scoped field; a reconnect only unlocks. */
  function PointAt(c: Client, selection: Option<Selection>): Client {
    var moved := c.(selection := selection, epoch := c.epoch + 1, relistAfterOperation := false, restoreDue := false,
                    mutating := false);
    if selection.Some? && c.selection.Some? && c.selection.value.host == selection.value.host then moved
    else moved.(status := Idle, memberships := None)
  }

  function Select(c: Client, selection: Option<Selection>): Client {
    Refresh(PointAt(c, selection))
  }

  /** `addRoot` and `removeRoot`; `valid` is the input check of an add. */
  function Mutate(c: Client, action: Action, valid: bool): Client {
    if c.selection.None? || Busy(c) || !valid then c
    else StartChange(c, c.selection.value, action, Mutation, [])
  }

  /** A move starts and ends inside the call. */
  function MoveRoot(c: Client, possible: bool): Client {
    if c.selection.None? || c.memberships.None? || !possible then c else c.(generation := c.generation + 2)
  }

  function Resume(c: Client, id: nat): Client {
    c.(tasks := c.tasks - {id})
  }

  predicate Accepts(c: Client, wait: Wait)
    requires wait.Listing?
  {
    wait.epoch == c.epoch && wait.sequence == c.listSequence && !Busy(c) && wait.generation == c.generation
  }

  function Listed(c: Client, id: nat, listed: Registrations): Client
    requires id in c.tasks && c.tasks[id].wait.Listing?
  {
    var Task(Listing(epoch, generation, sequence, selection), superseded) := c.tasks[id];
    var r := Resume(c, id);
    if epoch != c.epoch || sequence != c.listSequence then Finish(r, superseded)
    else if Busy(c) then Finish(r.(relistAfterOperation := true), superseded)
    else if generation != c.generation then SendListing(r, superseded)
    else Accepted(r, selection, listed, superseded)
  }

  function Accepted(c: Client, selection: Selection, listed: Registrations, superseded: seq<Operation>): Client {
    var accepted := c.(status := Ready, memberships := Some(listed));
    if c.restoreDue then RestorePrevious(accepted.(restoreDue := false), selection, listed, superseded)
    else Finish(accepted, superseded)
  }

  function ListFailed(c: Client, id: nat): Client
    requires id in c.tasks && c.tasks[id].wait.Listing?
  {
    var Task(Listing(epoch, _, sequence, _), superseded) := c.tasks[id];
    var r := Resume(c, id);
    if epoch != c.epoch || sequence != c.listSequence then Finish(r, superseded)
    else Finish(r.(status := Error), superseded)
  }

  function Changed(c: Client, id: nat, answer: Registrations): Client
    requires id in c.tasks && c.tasks[id].wait.Change?
  {
    var Task(Change(operation, selection, action, purpose), superseded) := c.tasks[id];
    var r := Resume(c, id);
    if operation.epoch != c.epoch then SettleSuperseded(r, selection, [operation] + superseded)
    else match purpose
      case Mutation => EndChange(r.(memberships := Some(answer), status := Ready), operation, superseded)
      case Restore(remaining, _) =>
        if remaining == []
        then EndChange(r.(memberships := Some(answer), restored := c.restored + {selection.host}), operation, superseded)
        else c.(tasks := c.tasks[id := Task(Change(operation, selection, Add(remaining[0]), Restore(remaining[1..], answer)), superseded)])
  }

  function ChangeFailed(c: Client, id: nat): Client
    requires id in c.tasks && c.tasks[id].wait.Change?
  {
    var Task(Change(operation, selection, _, purpose), superseded) := c.tasks[id];
    var r := Resume(c, id);
    if operation.epoch != c.epoch then SettleSuperseded(r, selection, [operation] + superseded)
    else EndChange(if purpose.Restore? then r.(memberships := Some(purpose.latest)) else r, operation, superseded)
  }

  // ----- the controller -----

  class HostWorkspaceRoots {
    var epoch: nat
    var generation: nat
    var operation: Option<Operation>
    var listSequence: nat
    var restoreDue: bool
    var relistAfterOperation: bool
    var selection: Option<Selection>
    var status: Status
    var memberships: Option<Registrations>
    var mutating: bool
    var restored: set<HostId>
    const allRestored: bool
    const ledgerError: bool
    var ledgerErrorShown: bool
    var tasks: map<nat, Task>
    var nextId: nat

    function State(): Client
      reads this
    {
      Client(epoch, generation, operation, listSequence, restoreDue, relistAfterOperation, selection, status,
             memberships, mutating, restored, allRestored, ledgerError, ledgerErrorShown, tasks, nextId)
    }

    constructor (restored: set<HostId>, allRestored: bool, ledgerError: bool)
      ensures State() == Init(restored, allRestored, ledgerError)
    {
      this.restored, this.allRestored, this.ledgerError := restored, allRestored, ledgerError;
      epoch, generation, operation, listSequence := 0, 0, None, 0;
      restoreDue, relistAfterOperation, ledgerErrorShown := false, false, false;
      selection, status, memberships, mutating := None, Idle, None, false;
      tasks, nextId := map[], 0;
    }

    predicate IsBusy()
      reads this
      ensures IsBusy() <==> Busy(State())
    {
      operation.Some? && operation.value.epoch == epoch
    }

    method Await(task: Task)
      modifies this`tasks, this`nextId
      ensures State() == Suspend(old(State()), task)
    {
      tasks := tasks[nextId := task];
      nextId := nextId + 1;
    }

    method List(superseded: seq<Operation>)
      modifies this
      ensures State() == SendListing(old(State()), superseded)
      decreases |superseded|, 1
    {
      if selection.None? {
        RunFinally(superseded);
        return;
      }
      listSequence := listSequence + 1;
      status := Loading;
      Await(Task(Listing(epoch, generation, listSequence, selection.value), superseded));
    }

    method RunFinally(superseded: seq<Operation>)
      modifies this
      ensures State() == Finish(old(State()), superseded)
      decreases |superseded|, 0
    {
      if superseded != [] {
        Unlock(superseded[0], superseded[1..]);
      }
    }

    /** The `finally` of `locked`. */
    method Unlock(ended: Operation, superseded: seq<Operation>)
      modifies this
      ensures State() == EndChange(old(State()), ended, superseded)
      decreases |superseded|, 3
    {
      generation := generation + 1;
      if operation == Some(ended) {
        operation := None;
      }
      if ended.epoch == epoch {
        mutating := false;
        Flush(superseded);
      } else {
        RunFinally(superseded);
      }
    }

    method Flush(superseded: seq<Operation>)
      modifies this
      ensures State() == FlushRelist(old(State()), superseded)
      decreases |superseded|, 2
    {
      if !relistAfterOperation || IsBusy() {
        RunFinally(superseded);
      } else {
        relistAfterOperation := false;
        List(superseded);
      }
    }

    method Settle(late: Selection, superseded: seq<Operation>)
      modifies this
      ensures State() == SettleSuperseded(old(State()), late, superseded)
    {
      if selection.None? || selection.value.host != late.host {
        RunFinally(superseded);
      } else if IsBusy() {
        relistAfterOperation := true;
        RunFinally(superseded);
      } else {
        List(superseded);
      }
    }

    /** The head of `locked`: take the lock and send the change's first command. */
    method Lock(holder: Selection, action: Action, purpose: Purpose, superseded: seq<Operation>)
      modifies this
      ensures State() == StartChange(old(State()), holder, action, purpose, superseded)
    {
      operation := Some(Operation(epoch, nextId));
      generation := generation + 1;
      mutating := true;
      Await(Task(Change(operation.value, holder, action, purpose), superseded));
    }

    method Restore(holder: Selection, listed: Registrations, superseded: seq<Operation>)
      modifies this
      ensures State() == RestorePrevious(old(State()), holder, listed, superseded)
    {
      if holder.previousRoots.None? {
        RunFinally(superseded);
        return;
      }
      if ledgerError && !ledgerErrorShown {
        ledgerErrorShown := true;
        RunFinally(superseded);
        return;
      }
      if ledgerError || allRestored || holder.host in restored {
        RunFinally(superseded);
        return;
      }
      var missing := Filter(holder.previousRoots.value, path => path !in listed);
      if |missing| == 0 {
        restored := restored + {holder.host};
        RunFinally(superseded);
      } else {
        Lock(holder, Add(missing[0]), Purpose.Restore(missing[1..], listed), superseded);
      }
    }

    method RefreshRoots()
      modifies this
      ensures State() == Refresh(old(State()))
    {
      if selection.Some? {
        restoreDue := true;
        List([]);
      }
    }

    method SelectHost(next: Option<Selection>)
      modifies this
      ensures State() == Select(old(State()), next)
    {
      Point(next);
      RefreshRoots();
    }

    method Point(next: Option<Selection>)
      modifies this
      ensures State() == PointAt(old(State()), next)
    {
      var reconnect := next.Some? && selection.Some? && selection.value.host == next.value.host;
      selection, epoch := next, epoch + 1;
      relistAfterOperation, restoreDue, mutating := false, false, false;
      if !reconnect {
        status, memberships := Idle, None;
      }
    }

    method ChangeRoot(action: Action, valid: bool) returns (started: bool)
      modifies this
      ensures State() == Mutate(old(State()), action, valid)
      ensures started <==> old(selection.Some? && !IsBusy()) && valid
    {
      if selection.None? || IsBusy() || !valid {
        return false;
      }
      Lock(selection.value, action, Mutation, []);
      started := true;
    }

    method Move(possible: bool)
      modifies this
      ensures State() == MoveRoot(old(State()), possible)
    {
      if selection.Some? && memberships.Some? && possible {
        generation := generation + 2;
      }
    }

    method OnListed(id: nat, listed: Registrations)
      requires id in tasks && tasks[id].wait.Listing?
      modifies this
      ensures State() == Listed(old(State()), id, listed)
    {
      var Task(Listing(sentEpoch, sentGeneration, sequence, holder), superseded) := tasks[id];
      tasks := tasks - {id};
      if sentEpoch != epoch || sequence != listSequence {
        RunFinally(superseded);
      } else if IsBusy() {
        relistAfterOperation := true;
        RunFinally(superseded);
      } else if sentGeneration != generation {
        List(superseded);
      } else {
        Accept(holder, listed, superseded);
      }
    }

    method Accept(holder: Selection, listed: Registrations, superseded: seq<Operation>)
      modifies this
      ensures State() == Accepted(old(State()), holder, listed, superseded)
    {
      status, memberships := Ready, Some(listed);
      if restoreDue {
        restoreDue := false;
        Restore(holder, listed, superseded);
      } else {
        RunFinally(superseded);
      }
    }

    method OnListFailed(id: nat)
      requires id in tasks && tasks[id].wait.Listing?
      modifies this
      ensures State() == ListFailed(old(State()), id)
    {
      var Task(Listing(sentEpoch, _, sequence, _), superseded) := tasks[id];
      tasks := tasks - {id};
      if sentEpoch == epoch && sequence == listSequence {
        status := Error;
      }
      RunFinally(superseded);
    }

    method OnChanged(id: nat, answer: Registrations)
      requires id in tasks && tasks[id].wait.Change?
      modifies this
      ensures State() == Changed(old(State()), id, answer)
    {
      var Task(Change(holder, late, action, purpose), superseded) := tasks[id];
      if holder.epoch != epoch {
        tasks := tasks - {id};
        Settle(late, [holder] + superseded);
      } else if purpose.Restore? && |purpose.remaining| > 0 {
        var remaining := purpose.remaining;
        tasks := tasks[id := Task(Change(holder, late, Add(remaining[0]), Purpose.Restore(remaining[1..], answer)), superseded)];
      } else {
        tasks := tasks - {id};
        memberships := Some(answer);
        if purpose.Restore? {
          restored := restored + {late.host};
        } else {
          status := Ready;
        }
        Unlock(holder, superseded);
      }
    }

    method OnChangeFailed(id: nat)
      requires id in tasks && tasks[id].wait.Change?
      modifies this
      ensures State() == ChangeFailed(old(State()), id)
    {
      var Task(Change(holder, late, _, purpose), superseded) := tasks[id];
      tasks := tasks - {id};
      if holder.epoch != epoch {
        Settle(late, [holder] + superseded);
      } else {
        if purpose.Restore? {
          memberships := Some(purpose.latest);
        }
        Unlock(holder, superseded);
      }
    }
  }
}
