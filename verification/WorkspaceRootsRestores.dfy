/** src/hostWorkspaceRoots.ts: a host's previous roots are restored at most once. */
module WorkspaceRootsRestores {
  import opened Collections
  import opened HostWorkspaceRoots
  import opened WorkspaceRootsRuns

  predicate Restores(task: Task, host: HostId) {
    task.wait.Change? && task.wait.purpose.Restore? && task.wait.selection.host == host
  }

  /** No restore of the host has started since call `bound`. */
  ghost predicate NoneSince(tasks: map<nat, Task>, host: HostId, bound: nat) {
    forall id: nat | id in tasks && bound <= id :: !Restores(tasks[id], host)
  }

  /** The ledger has the host, and no restore of it has started since. */
  ghost predicate Closed(c: Client, host: HostId, bound: nat) {
    AlreadyRestored(c, host) && bound <= c.nextId && NoneSince(c.tasks, host, bound)
  }

  // ----- the end of a call starts none -----

  lemma FinishCloses(c: Client, superseded: seq<Operation>, host: HostId, bound: nat)
    requires Closed(c, host, bound)
    ensures Closed(Finish(c, superseded), host, bound)
    decreases |superseded|, 0
  {
    if superseded != [] {
      EndCloses(c, superseded[0], superseded[1..], host, bound);
    }
  }

  lemma SendCloses(c: Client, superseded: seq<Operation>, host: HostId, bound: nat)
    requires Closed(c, host, bound)
    ensures Closed(SendListing(c, superseded), host, bound)
    decreases |superseded|, 1
  {
    if c.selection.None? {
      FinishCloses(c, superseded, host, bound);
    }
  }

  lemma FlushCloses(c: Client, superseded: seq<Operation>, host: HostId, bound: nat)
    requires Closed(c, host, bound)
    ensures Closed(FlushRelist(c, superseded), host, bound)
    decreases |superseded|, 2
  {
    if !c.relistAfterOperation || Busy(c) {
      FinishCloses(c, superseded, host, bound);
    } else {
      SendCloses(c.(relistAfterOperation := false), superseded, host, bound);
    }
  }

  lemma EndCloses(c: Client, operation: Operation, superseded: seq<Operation>, host: HostId, bound: nat)
    requires Closed(c, host, bound)
    ensures Closed(EndChange(c, operation, superseded), host, bound)
    decreases |superseded|, 3
  {
    var ended := c.(generation := c.generation + 1, operation := if c.operation == Some(operation) then None else c.operation);
    if operation.epoch == c.epoch {
      FlushCloses(ended.(mutating := false), superseded, host, bound);
    } else {
      FinishCloses(ended, superseded, host, bound);
    }
  }

  lemma SettleCloses(c: Client, selection: Selection, superseded: seq<Operation>, host: HostId, bound: nat)
    requires Closed(c, host, bound)
    ensures Closed(SettleSuperseded(c, selection, superseded), host, bound)
  {
    hide Finish, SendListing;
    FinishCloses(c, superseded, host, bound);
    FinishCloses(c.(relistAfterOperation := true), superseded, host, bound);
    SendCloses(c, superseded, host, bound);
  }

  // ----- no step starts one -----

  /** Another host may be restored; a host the ledger has is not. */
  lemma RestoreCloses(c: Client, selection: Selection, listed: Registrations, superseded: seq<Operation>, host: HostId, bound: nat)
    requires Closed(c, host, bound)
    ensures Closed(RestorePrevious(c, selection, listed, superseded), host, bound)
  {
    hide Finish;
    FinishCloses(c, superseded, host, bound);
    FinishCloses(c.(ledgerErrorShown := true), superseded, host, bound);
    FinishCloses(c.(restored := c.restored + {selection.host}), superseded, host, bound);
  }

  lemma AcceptedCloses(c: Client, selection: Selection, listed: Registrations, superseded: seq<Operation>, host: HostId, bound: nat)
    requires Closed(c, host, bound)
    ensures Closed(Accepted(c, selection, listed, superseded), host, bound)
  {
    hide Finish, RestorePrevious;
    var accepted := c.(status := Ready, memberships := Some(listed));
    FinishCloses(accepted, superseded, host, bound);
    RestoreCloses(accepted.(restoreDue := false), selection, listed, superseded, host, bound);
  }

  lemma ListedCloses(c: Client, id: nat, listed: Registrations, host: HostId, bound: nat)
    requires Closed(c, host, bound) && IsListing(c, id)
    ensures Closed(Listed(c, id, listed), host, bound) && Closed(ListFailed(c, id), host, bound)
  {
    hide Finish, SendListing, Accepted;
    var Task(Listing(_, _, _, selection), superseded) := c.tasks[id];
    var r := Resume(c, id);
    FinishCloses(r, superseded, host, bound);
    FinishCloses(r.(relistAfterOperation := true), superseded, host, bound);
    FinishCloses(r.(status := Error), superseded, host, bound);
    SendCloses(r, superseded, host, bound);
    AcceptedCloses(r, selection, listed, superseded, host, bound);
  }

  lemma ChangedCloses(c: Client, id: nat, answer: Registrations, host: HostId, bound: nat)
    requires Closed(c, host, bound) && IsChange(c, id)
    ensures Closed(Changed(c, id, answer), host, bound)
  {
    hide SettleSuperseded, EndChange;
    var Task(Change(operation, selection, _, purpose), superseded) := c.tasks[id];
    var r := Resume(c, id);
    SettleCloses(r, selection, [operation] + superseded, host, bound);
    EndCloses(r.(memberships := Some(answer), status := Ready), operation, superseded, host, bound);
    EndCloses(r.(memberships := Some(answer), restored := c.restored + {selection.host}), operation, superseded, host, bound);
    assert Restores(c.tasks[id], host) ==> id < bound || !purpose.Restore?;
  }

  lemma ChangeFailedCloses(c: Client, id: nat, host: HostId, bound: nat)
    requires Closed(c, host, bound) && IsChange(c, id)
    ensures Closed(ChangeFailed(c, id), host, bound)
  {
    hide SettleSuperseded, EndChange;
    var Task(Change(operation, selection, _, purpose), superseded) := c.tasks[id];
    var r := Resume(c, id);
    SettleCloses(r, selection, [operation] + superseded, host, bound);
    EndCloses(if purpose.Restore? then r.(memberships := Some(purpose.latest)) else r, operation, superseded, host, bound);
  }

  lemma CallCloses(c: Client, w: World, e: Event, host: HostId, bound: nat)
    requires Closed(c, host, bound) && c == w.client
    requires e.SelectHost? || e.RefreshView? || e.MutateRoot? || e.MovedRoot?
    ensures Closed(Step(c, w, e), host, bound)
  {
    hide SendListing;
    if e.SelectHost? {
      SendCloses(PointAt(c, e.selection).(restoreDue := true), [], host, bound);
    } else if e.RefreshView? {
      SendCloses(c.(restoreDue := true), [], host, bound);
    }
  }

  lemma NextCloses(w: World, e: Event, host: HostId, bound: nat)
    requires Closed(w.client, host, bound)
    ensures Closed(Next(w, e).client, host, bound)
  {
    hide Closed, Listed, ListFailed, Changed, ChangeFailed;
    if Enabled(w, e) {
      match e
      case ListAnswer(id) => ListedCloses(w.client, id, w.served[id].listed, host, bound);
      case ListError(id) => ListedCloses(w.client, id, {}, host, bound);
      case ChangeAnswer(id) => ChangedCloses(w.client, id, w.applied[id], host, bound);
      case ChangeError(id) => ChangeFailedCloses(w.client, id, host, bound);
      case Serve(_) =>
      case Apply(_) =>
      case Outside(_, _) =>
      case _ => CallCloses(w.client, w, e, host, bound);
    }
  }

  // ----- every run -----

  /** Once the ledger has a host it keeps it, and no restore of that host starts in any
      continuation of any run: whatever restore of it still runs had started before. */
  lemma {:induction false} RestoredOnce(start: World, events: seq<Event>, more: seq<Event>, host: HostId)
    requires IsStart(start) && AlreadyRestored(Run(start, events).client, host)
    ensures Closed(Run(start, events + more).client, host, Run(start, events).client.nextId)
    decreases |more|
  {
    if more == [] {
      assert events + more == events;
      RunInv(start, events);
      NoneLater(Run(start, events).client, Run(start, events), host);
    } else {
      hide Next, Closed;
      var init := more[..|more| - 1];
      RestoredOnce(start, events, init, host);
      assert (events + more)[..|events + more| - 1] == events + init;
      NextCloses(Run(start, events + init), more[|more| - 1], host, Run(start, events).client.nextId);
    }
  }

  lemma NoneLater(c: Client, w: World, host: HostId)
    requires Inv(c, w)
    ensures NoneSince(c.tasks, host, c.nextId)
  {
    forall id: nat | id in c.tasks
      ensures id < c.nextId
    {
      assert TaskOk(c, id, c.tasks[id]);
    }
  }

  /** A restore that ends writes its host into the ledger. */
  lemma RestoreIsRecorded(start: World, events: seq<Event>, id: nat)
    requires IsStart(start) && Enabled(Run(start, events), ChangeAnswer(id)) && Current(Run(start, events).client, id)
    requires var purpose := Run(start, events).client.tasks[id].wait.purpose; purpose.Restore? && purpose.remaining == []
    ensures var w := Run(start, events);
            AlreadyRestored(Next(w, ChangeAnswer(id)).client, w.client.tasks[id].wait.selection.host)
  {
    RunInv(start, events);
    var w := Run(start, events);
    var c := w.client;
    var Task(Change(operation, selection, _, _), superseded) := c.tasks[id];
    NoneLater(c, w, selection.host);
    hide Run, EndChange, Inv;
    var ended := Resume(c, id).(memberships := Some(w.applied[id]), restored := c.restored + {selection.host});
    EndCloses(ended, operation, superseded, selection.host, c.nextId);
  }
}
