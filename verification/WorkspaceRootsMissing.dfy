/** src/hostWorkspaceRoots.ts: which roots a restore adds, and what a finished one leaves. */
module WorkspaceRootsMissing {
  import opened Collections
  import opened HostWorkspaceRoots
  import opened WorkspaceRootsRuns
  import opened WorkspaceRootsView

  predicate IsRestore(c: Client, id: nat) {
    Current(c, id) && c.tasks[id].wait.purpose.Restore?
  }

  /** The host has the root, or was changed by another command or by somebody else. */
  ghost predicate Kept(c: Client, w: World, id: nat, path: Path)
    requires IsChange(c, id)
  {
    var host := c.tasks[id].wait.selection.host;
    path in Reg(w, host) || host in w.doubt || c.relistAfterOperation || AppliedOther(c, w, host, id)
  }

  /** A restore only adds previous roots, and each of them is there or still to come. */
  ghost predicate RestoreOk(c: Client, w: World, id: nat)
    requires IsRestore(c, id)
  {
    var Task(Change(_, selection, action, purpose), _) := c.tasks[id];
    && selection.previousRoots.Some? && action.Add?
    && (forall path | path in [action.path] + purpose.remaining :: path in selection.previousRoots.value)
    && (forall path | path in selection.previousRoots.value ::
          path in purpose.remaining || (id !in w.applied && path == action.path) || Kept(c, w, id, path))
  }

  ghost predicate RestoresOk(c: Client, w: World) {
    forall id | IsRestore(c, id) :: RestoreOk(c, w, id)
  }

  /** The restores after a step are those before it, and have lost nothing. */
  ghost predicate Carried(c: Client, w: World, c': Client, w': World) {
    forall id | IsRestore(c', id) ::
      && IsRestore(c, id) && c'.tasks[id] == c.tasks[id] && (id in w'.applied ==> id in w.applied)
      && (forall path | Kept(c, w, id, path) :: Kept(c', w', id, path))
  }

  lemma CarriedOk(c: Client, w: World, c': Client, w': World)
    requires RestoresOk(c, w) && Carried(c, w, c', w')
    ensures RestoresOk(c', w')
  {
    forall id | IsRestore(c', id)
      ensures RestoreOk(c', w', id)
    {
      assert RestoreOk(c, w, id);
    }
  }

  /** Only one change is of the current epoch: the one that holds the lock. */
  lemma OneCurrent(c: Client, i: nat, j: nat)
    requires TasksOk(c) && Current(c, i) && Current(c, j)
    ensures i == j && Busy(c) && c.operation.value == c.tasks[i].wait.operation
  {
    assert TaskOk(c, i, c.tasks[i]) && TaskOk(c, j, c.tasks[j]);
  }

  // ----- the steps of the hosts -----

  lemma ServeCarries(c: Client, w: World, id: nat)
    requires w.client == c && Enabled(w, Serve(id))
    ensures Carried(c, w, c, Next(w, Serve(id)))
  {
    Evidence(c, w, c, Next(w, Serve(id)));
  }

  lemma OutsideCarries(c: Client, w: World, host: HostId, registrations: Registrations)
    requires w.client == c
    ensures Carried(c, w, c, Next(w, Outside(host, registrations)))
  {
    var after := Next(w, Outside(host, registrations));
    Evidence(c, w, c, after);
    assert forall other | other != host :: Reg(after, other) == Reg(w, other);
  }

  lemma ApplyOk(c: Client, w: World, id: nat)
    requires Inv(c, w) && RestoresOk(c, w) && w.client == c && Enabled(w, Apply(id))
    ensures RestoresOk(c, Next(w, Apply(id)))
  {
    var after := Next(w, Apply(id));
    var host := c.tasks[id].wait.selection.host;
    Evidence(c, w, c, after);
    assert IsApplied(c, after, host, id);
    assert forall other | other != host :: Reg(after, other) == Reg(w, other);
    forall i | IsRestore(c, i)
      ensures RestoreOk(c, after, i)
    {
      assert RestoreOk(c, w, i);
      if i != id && c.tasks[i].wait.selection.host == host {
        assert AppliedOther(c, after, host, i);
      }
    }
  }

  // ----- the steps of the client -----

  /** The waiting calls and the epoch stay; a re-read may come to be owed. */
  ghost predicate SameCalls(c: Client, c': Client) {
    c'.tasks == c.tasks && c'.epoch == c.epoch && (c.relistAfterOperation ==> c'.relistAfterOperation)
  }

  lemma SameCallsCarry(c: Client, w: World, c': Client)
    requires SameCalls(c, c')
    ensures Carried(c, w, c', w)
  {
    AppliedSame(c, c', w);
  }

  lemma FinishOk(c: Client, w: World, superseded: seq<Operation>)
    requires RestoresOk(c, w) && Old(c, superseded)
    ensures RestoresOk(Finish(c, superseded), w)
  {
    FinishEnds(c, superseded);
    SameCallsCarry(c, w, Finish(c, superseded));
    CarriedOk(c, w, Finish(c, superseded), w);
  }

  lemma SendOk(c: Client, w: World, superseded: seq<Operation>)
    requires RestoresOk(c, w) && TasksOk(c) && NumbersUnique(c) && KeysOk(c, w) && Old(c, superseded) && c.selection.Some?
    ensures RestoresOk(SendListing(c, superseded), w)
  {
    var sent := SendListing(c, superseded);
    SendListingOk(c, superseded);
    SendNumbers(c, superseded);
    AppliedSent(c, sent, w, sent.tasks[c.nextId]);
    forall id | IsRestore(sent, id)
      ensures id != c.nextId
    {
      assert Current(c, id);
      assert TaskOk(c, id, c.tasks[id]);
    }
    assert Carried(c, w, sent, w);
    CarriedOk(c, w, sent, w);
  }

  /** With the lock free no restore of this epoch runs. */
  lemma FreeOk(c: Client, w: World)
    requires TasksOk(c) && !Busy(c)
    ensures RestoresOk(c, w)
  {
    forall id
      ensures !IsRestore(c, id)
    {
      if IsRestore(c, id) {
        OneCurrent(c, id, id);
      }
    }
  }

  lemma SelectOk(c: Client, w: World, selection: Option<Selection>)
    requires Inv(c, w)
    ensures RestoresOk(Select(c, selection), w)
  {
    var p := PointAt(c, selection);
    PointAtInv(c, w, selection);
    PointAtFrees(c, w, selection);
    hide Inv, RestoresOk, PointAt, NumbersUnique;
    if selection.Some? {
      FlagsSettled(p, p.(restoreDue := true), w);
      FreeOk(p.(restoreDue := true), w);
      SendOk(p.(restoreDue := true), w, []);
    } else {
      FreeOk(p, w);
    }
  }

  lemma PointAtFrees(c: Client, w: World, selection: Option<Selection>)
    requires Inv(c, w)
    ensures !Busy(PointAt(c, selection)) && PointAt(c, selection).selection == selection
  {
  }

  lemma RefreshOk(c: Client, w: World)
    requires Inv(c, w) && RestoresOk(c, w)
    ensures RestoresOk(Refresh(c), w)
  {
    if c.selection.Some? {
      FlagsSettled(c, c.(restoreDue := true), w);
      SameCallsCarry(c, w, c.(restoreDue := true));
      CarriedOk(c, w, c.(restoreDue := true), w);
      SendOk(c.(restoreDue := true), w, []);
    }
  }

  /** A mutation starts only while no restore runs. */
  lemma MutateOk(c: Client, w: World, action: Action, valid: bool)
    requires Inv(c, w) && RestoresOk(c, w)
    ensures RestoresOk(Mutate(c, action, valid), w)
  {
    if c.selection.Some? && !Busy(c) && valid {
      var started := StartChange(c, c.selection.value, action, Mutation, []);
      StartChangeOk(c, c.selection.value, action, Mutation, []);
      forall id
        ensures !IsRestore(started, id)
      {
        if IsRestore(started, id) {
          OneCurrent(started, id, c.nextId);
        }
      }
    }
  }

  lemma ListingLeavesOk(c: Client, w: World, after: World, id: nat)
    requires Inv(c, w) && RestoresOk(c, w) && IsListing(c, id)
    requires OnlyEnv(w, after, w.served - {id}, w.applied) && (after.doubt == w.doubt || !Busy(c))
    ensures RestoresOk(Resume(c, id), after)
  {
    var r := Resume(c, id);
    ResumeOk(c, id);
    if Busy(c) {
      Evidence(c, w, r, after);
      assert Carried(c, w, r, after);
      CarriedOk(c, w, r, after);
    } else {
      FreeOk(r, after);
    }
  }

  /** `missing` are the previous roots a listing lacks. */
  ghost predicate Lacks(selection: Selection, listed: Registrations, missing: seq<Path>) {
    selection.previousRoots.Some? && forall path :: path in missing <==> path in selection.previousRoots.value && path !in listed
  }

  /** The restore an accepted listing starts is to add all it lacks. */
  lemma StartOk(c: Client, w: World, selection: Selection, listed: Registrations, superseded: seq<Operation>, missing: seq<Path>)
    requires Inv(c, w) && Old(c, superseded) && c.selection == Some(selection) && !Busy(c)
    requires Matches(c, w, selection.host, listed) && Lacks(selection, listed, missing) && missing != []
    ensures RestoresOk(StartChange(c, selection, Add(missing[0]), Restore(missing[1..], listed), superseded), w)
  {
    var started := StartChange(c, selection, Add(missing[0]), Restore(missing[1..], listed), superseded);
    StartChangeOk(c, selection, Add(missing[0]), Restore(missing[1..], listed), superseded);
    AppliedSent(c, started, w, started.tasks[c.nextId]);
    assert missing == [missing[0]] + missing[1..];
    if AppliedPending(c, w, selection.host) {
      var other :| IsApplied(started, w, selection.host, other);
      assert AppliedOther(started, w, selection.host, c.nextId);
    }
    assert RestoreOk(started, w, c.nextId);
    forall id | IsRestore(started, id)
      ensures id == c.nextId
    {
      OneCurrent(started, id, c.nextId);
    }
  }

  lemma RestorePreviousOk(c: Client, w: World, selection: Selection, listed: Registrations, superseded: seq<Operation>)
    requires Inv(c, w) && Old(c, superseded) && c.selection == Some(selection) && !Busy(c)
    requires Matches(c, w, selection.host, listed)
    ensures RestoresOk(RestorePrevious(c, selection, listed, superseded), w)
  {
    FreeOk(c, w);
    FreeOk(c.(ledgerErrorShown := true), w);
    FreeOk(c.(restored := c.restored + {selection.host}), w);
    hide Inv, RestoresOk, Finish;
    if selection.previousRoots.Some? && !AlreadyRestored(c, selection.host) {
      var missing := Filter(selection.previousRoots.value, path => path !in listed);
      FilterMembers(selection.previousRoots.value, path => path !in listed);
      if missing != [] {
        StartOk(c, w, selection, listed, superseded, missing);
      }
    }
    FinishOk(c, w, superseded);
    FinishOk(c.(ledgerErrorShown := true), w, superseded);
    FinishOk(c.(restored := c.restored + {selection.host}), w, superseded);
  }

  // ----- the answers -----

  lemma OwedOk(c: Client, w: World)
    requires RestoresOk(c, w)
    ensures RestoresOk(c.(relistAfterOperation := true), w)
  {
    SameCallsCarry(c, w, c.(relistAfterOperation := true));
    CarriedOk(c, w, c.(relistAfterOperation := true), w);
  }

  lemma AcceptedOk(c: Client, w: World, after: World, id: nat)
    requires Inv(c, w) && IsListing(c, id) && id in w.served && Accepts(c, c.tasks[id].wait)
    requires OnlyEnv(w, after, w.served - {id}, w.applied)
    requires after.doubt == if w.served[id].sure then w.doubt - {c.tasks[id].wait.selection.host} else w.doubt
    ensures RestoresOk(Listed(c, id, w.served[id].listed), after)
  {
    var Task(Listing(_, _, _, selection), superseded) := c.tasks[id];
    var listed := w.served[id].listed;
    var accepted := Resume(c, id).(status := Ready, memberships := Some(listed));
    assert TaskOk(c, id, c.tasks[id]);
    AcceptedListingInv(c, w, after, id);
    FreeOk(accepted, after);
    hide Inv, RestoresOk, RestorePrevious, Finish, TaskOk;
    if c.restoreDue {
      FlagsInv(accepted, accepted.(restoreDue := false), after);
      AppliedSame(accepted, accepted.(restoreDue := false), after);
      RestorePreviousOk(accepted.(restoreDue := false), after, selection, listed, superseded);
    } else {
      FinishOk(accepted, after, superseded);
    }
  }

  lemma ListAnswerOk(c: Client, w: World, after: World, id: nat)
    requires Inv(c, w) && RestoresOk(c, w) && IsListing(c, id) && id in w.served
    requires OnlyEnv(w, after, w.served - {id}, w.applied)
    requires after.doubt == if Accepts(c, c.tasks[id].wait) && w.served[id].sure
                            then w.doubt - {c.tasks[id].wait.selection.host} else w.doubt
    ensures RestoresOk(Listed(c, id, w.served[id].listed), after)
  {
    var Task(Listing(_, generation, _, selection), superseded) := c.tasks[id];
    var r := Resume(c, id);
    ListingOld(c, w, id);
    ListingLeavesOk(c, w, after, id);
    if !IsLatest(c, id) {
      hide Inv, RestoresOk;
      FinishOk(r, after, superseded);
    } else if Busy(c) {
      hide Inv, RestoresOk;
      OwedOk(r, after);
      FinishOk(r.(relistAfterOperation := true), after, superseded);
    } else if generation != c.generation {
      assert TaskOk(c, id, c.tasks[id]);
      ListingLeaves(c, w, after, id);
      hide Inv, RestoresOk;
      SendOk(r, after, superseded);
    } else {
      hide Inv, RestoresOk;
      AcceptedOk(c, w, after, id);
    }
  }

  lemma ListErrorOk(c: Client, w: World, after: World, id: nat)
    requires Inv(c, w) && RestoresOk(c, w) && IsListing(c, id)
    requires OnlyEnv(w, after, w.served - {id}, w.applied) && after.doubt == w.doubt
    ensures RestoresOk(ListFailed(c, id), after)
  {
    var r := Resume(c, id);
    ListingOld(c, w, id);
    ListingLeavesOk(c, w, after, id);
    SameCallsCarry(r, after, r.(status := Error));
    hide Inv, RestoresOk;
    CarriedOk(r, after, r.(status := Error), after);
    FinishOk(r, after, c.tasks[id].superseded);
    FinishOk(r.(status := Error), after, c.tasks[id].superseded);
  }

  /** A superseded change of another host leaves no trace; one of the host in view owes it a re-read. */
  lemma SupersededCarries(c: Client, w: World, after: World, id: nat)
    requires Inv(c, w) && IsChange(c, id) && !Current(c, id) && Busy(c)
    requires OnlyEnv(w, after, w.served, w.applied - {id}) && after.doubt == w.doubt
    ensures Carried(c, w, Resume(c, id).(relistAfterOperation := true), after)
    ensures c.selection.None? || c.selection.value.host != c.tasks[id].wait.selection.host ==> Carried(c, w, Resume(c, id), after)
  {
    var r := Resume(c, id);
    forall i | IsRestore(r, i)
      ensures c.selection == Some(c.tasks[i].wait.selection) && i != id
    {
      assert TaskOk(c, i, c.tasks[i]);
    }
    forall i, path | IsRestore(r, i) && Kept(c, w, i, path) && c.tasks[i].wait.selection.host != c.tasks[id].wait.selection.host
      ensures Kept(r, after, i, path)
    {
      var host := c.tasks[i].wait.selection.host;
      if AppliedOther(c, w, host, i) {
        var other :| other != i && IsApplied(c, w, host, other);
        assert other != i && IsApplied(r, after, host, other);
      }
    }
  }

  lemma SupersededOk(c: Client, w: World, after: World, id: nat)
    requires Inv(c, w) && RestoresOk(c, w) && IsChange(c, id) && !Current(c, id)
    requires OnlyEnv(w, after, w.served, w.applied - {id}) && after.doubt == w.doubt
    ensures var Task(Change(operation, selection, _, _), superseded) := c.tasks[id];
            RestoresOk(SettleSuperseded(Resume(c, id), selection, [operation] + superseded), after)
  {
    var Task(Change(operation, selection, _, _), superseded) := c.tasks[id];
    var r := Resume(c, id);
    var ending := [operation] + superseded;
    assert TaskOk(c, id, c.tasks[id]);
    assert Old(r, ending);
    ChangeLeaves(c, w, after, id);
    if Busy(c) {
      SupersededCarries(c, w, after, id);
      hide Inv, RestoresOk, Carried;
      if c.selection.None? || c.selection.value.host != selection.host {
        CarriedOk(c, w, r, after);
        FinishOk(r, after, ending);
      } else {
        CarriedOk(c, w, r.(relistAfterOperation := true), after);
        FinishOk(r.(relistAfterOperation := true), after, ending);
      }
    } else {
      FreeOk(r, after);
      hide Inv, RestoresOk;
      FinishOk(r, after, ending);
      if c.selection.Some? {
        SendOk(r, after, ending);
      }
    }
  }

  /** The change of this epoch ends, and no restore runs any more. */
  lemma EndOk(c: Client, w: World, after: World, id: nat, ended: Client)
    requires Writes(c, w, after, id, ended)
    ensures RestoresOk(EndChange(ended, c.tasks[id].wait.operation, c.tasks[id].superseded), after)
  {
    var operation, superseded := c.tasks[id].wait.operation, c.tasks[id].superseded;
    assert TaskOk(c, id, c.tasks[id]);
    WritesLeaving(c, w, after, id, ended);
    var u := Unlocked(ended);
    UnlockedOk(ended, after, operation);
    FreeOk(u, after);
    hide Inv, RestoresOk, Writes;
    if ended.relistAfterOperation {
      SendOk(u, after, superseded);
    } else {
      FinishOk(u, after, superseded);
    }
  }

  lemma NextRootOk(c: Client, w: World, after: World, id: nat)
    requires Inv(c, w) && RestoresOk(c, w) && IsRestore(c, id) && id in w.applied
    requires OnlyEnv(w, after, w.served, w.applied - {id}) && after.doubt == w.doubt
    requires c.tasks[id].wait.purpose.remaining != []
    ensures RestoresOk(Changed(c, id, w.applied[id]), after)
  {
    var next := Changed(c, id, w.applied[id]);
    var host := c.tasks[id].wait.selection.host;
    assert RestoreOk(c, w, id);
    var remaining := c.tasks[id].wait.purpose.remaining;
    assert remaining == [remaining[0]] + remaining[1..];
    if AppliedOther(c, w, host, id) {
      var other :| other != id && IsApplied(c, w, host, other);
      assert other != id && IsApplied(next, after, host, other);
    }
    assert RestoreOk(next, after, id);
    forall i | IsRestore(next, i)
      ensures i == id
    {
      if i != id {
        OneCurrent(c, i, id);
      }
    }
  }

  lemma ChangeAnswerOk(c: Client, w: World, after: World, id: nat)
    requires Inv(c, w) && RestoresOk(c, w) && IsChange(c, id) && id in w.applied
    requires OnlyEnv(w, after, w.served, w.applied - {id}) && after.doubt == w.doubt
    ensures RestoresOk(Changed(c, id, w.applied[id]), after)
  {
    var wait := c.tasks[id].wait;
    if !Current(c, id) {
      SupersededOk(c, w, after, id);
    } else if wait.purpose.Restore? && wait.purpose.remaining != [] {
      NextRootOk(c, w, after, id);
    } else {
      var r := Resume(c, id);
      var ended := if wait.purpose.Mutation? then r.(memberships := Some(w.applied[id]), status := Ready)
                   else r.(memberships := Some(w.applied[id]), restored := c.restored + {wait.selection.host});
      EvidenceLeaves(c, w, after, id, ended);
      EndOk(c, w, after, id, ended);
    }
  }

  lemma ChangeErrorOk(c: Client, w: World, after: World, id: nat)
    requires Inv(c, w) && RestoresOk(c, w) && IsChange(c, id)
    requires OnlyEnv(w, after, w.served, w.applied - {id})
    requires after.doubt == if Current(c, id) && id in w.applied
                            then w.doubt + {c.tasks[id].wait.selection.host} else w.doubt
    ensures RestoresOk(ChangeFailed(c, id), after)
  {
    var wait := c.tasks[id].wait;
    if !Current(c, id) {
      SupersededOk(c, w, after, id);
    } else {
      var r := Resume(c, id);
      var ended := if wait.purpose.Restore? then r.(memberships := Some(wait.purpose.latest)) else r;
      assert TaskOk(c, id, c.tasks[id]);
      EvidenceLeaves(c, w, after, id, ended);
      EndOk(c, w, after, id, ended);
    }
  }

  lemma MoveOk(c: Client, w: World, possible: bool)
    requires RestoresOk(c, w)
    ensures RestoresOk(MoveRoot(c, possible), w)
  {
    SameCallsCarry(c, w, MoveRoot(c, possible));
    CarriedOk(c, w, MoveRoot(c, possible), w);
  }

  lemma CallOk(w: World, e: Event)
    requires Inv(w.client, w) && RestoresOk(w.client, w)
    requires e.SelectHost? || e.RefreshView? || e.MutateRoot? || e.MovedRoot?
    ensures RestoresOk(Next(w, e).client, Next(w, e))
  {
    var c := Step(w.client, w, e);
    Evidence(c, w, c, w.(client := c));
    assert Carried(c, w, c, w.(client := c));
    hide Inv, RestoresOk, Carried, Select, Refresh, Mutate, MoveRoot;
    match e {
      case SelectHost(selection) => SelectOk(w.client, w, selection);
      case RefreshView => RefreshOk(w.client, w);
      case MutateRoot(action, valid) => MutateOk(w.client, w, action, valid);
      case MovedRoot(possible) => MoveOk(w.client, w, possible);
    }
    CarriedOk(c, w, c, w.(client := c));
  }

  lemma NextOk(w: World, e: Event)
    requires Inv(w.client, w) && RestoresOk(w.client, w)
    ensures RestoresOk(Next(w, e).client, Next(w, e))
  {
    hide Inv, RestoresOk, Listed, ListFailed, Changed, ChangeFailed, Select, Refresh, Mutate, MoveRoot;
    if Enabled(w, e) {
      var c, after := w.client, Next(w, e);
      match e
      case Serve(id) =>
        ServeCarries(c, w, id);
        CarriedOk(c, w, c, after);
      case Apply(id) => ApplyOk(c, w, id);
      case Outside(host, registrations) =>
        OutsideCarries(c, w, host, registrations);
        CarriedOk(c, w, c, after);
      case ListAnswer(id) => ListAnswerOk(c, w, after, id);
      case ListError(id) => ListErrorOk(c, w, after, id);
      case ChangeAnswer(id) => ChangeAnswerOk(c, w, after, id);
      case ChangeError(id) => ChangeErrorOk(c, w, after, id);
      case _ => CallOk(w, e);
    }
  }

  lemma {:induction false} RunRestores(start: World, events: seq<Event>)
    requires IsStart(start)
    ensures RestoresOk(Run(start, events).client, Run(start, events))
  {
    if events != [] {
      hide Inv, RestoresOk, Next;
      RunRestores(start, events[..|events| - 1]);
      RunInv(start, events[..|events| - 1]);
      NextOk(Run(start, events[..|events| - 1]), events[|events| - 1]);
    }
    hide Inv, Next;
  }

  // ----- what a finished restore leaves -----

  /** The end of a call keeps the view, the ledger and the restore that is due. */
  predicate Keeps(c: Client, c': Client) {
    c'.memberships == c.memberships && c'.restored == c.restored && c'.restoreDue == c.restoreDue
  }

  lemma FinishKeeps(c: Client, superseded: seq<Operation>)
    ensures Keeps(c, Finish(c, superseded))
    decreases |superseded|, 0
  {
    if superseded != [] {
      EndKeeps(c, superseded[0], superseded[1..]);
    }
  }

  lemma SendKeeps(c: Client, superseded: seq<Operation>)
    ensures Keeps(c, SendListing(c, superseded))
    decreases |superseded|, 1
  {
    if c.selection.None? {
      FinishKeeps(c, superseded);
    }
  }

  lemma EndKeeps(c: Client, operation: Operation, superseded: seq<Operation>)
    ensures Keeps(c, EndChange(c, operation, superseded))
    decreases |superseded|, 3
  {
    var ended := c.(generation := c.generation + 1, operation := if c.operation == Some(operation) then None else c.operation);
    var free := ended.(mutating := false);
    if operation.epoch != c.epoch {
      FinishKeeps(ended, superseded);
    } else if !free.relistAfterOperation || Busy(free) {
      FinishKeeps(free, superseded);
    } else {
      SendKeeps(free.(relistAfterOperation := false), superseded);
    }
  }

  /** When the last root of a current restore is answered, the view is that answer; and unless
      somebody else changed the host, or another command to it was answered or applied meanwhile,
      view and host hold every previous root. */
  lemma RestoreCompletes(start: World, events: seq<Event>, id: nat)
    requires IsStart(start) && Enabled(Run(start, events), ChangeAnswer(id)) && IsRestore(Run(start, events).client, id)
    requires Run(start, events).client.tasks[id].wait.purpose.remaining == []
    ensures var w := Run(start, events);
            var selection := w.client.tasks[id].wait.selection;
            var after := Next(w, ChangeAnswer(id));
            && after.client.memberships == Some(w.applied[id])
            && selection.previousRoots.Some?
            && (selection.host !in w.doubt && !w.client.relistAfterOperation && !AppliedOther(w.client, w, selection.host, id) ==>
                  forall path | path in selection.previousRoots.value :: path in w.applied[id] && path in Reg(after, selection.host))
  {
    var w := Run(start, events);
    var c := w.client;
    var Task(Change(operation, selection, _, _), superseded) := c.tasks[id];
    RunInv(start, events);
    RunRestores(start, events);
    assert RestoreOk(c, w, id) && Knows(c, w, id);
    hide Run, Inv, RestoresOk, EndChange;
    EndKeeps(Resume(c, id).(memberships := Some(w.applied[id]), restored := c.restored + {selection.host}), operation, superseded);
  }

  // ----- what a listing decides -----

  ghost predicate Decided(c: Client, selection: Selection, listed: Registrations, after: Client) {
    if selection.previousRoots.None? || AlreadyRestored(c, selection.host) then after.restored == c.restored && !Busy(after)
    else if forall path | path in selection.previousRoots.value :: path in listed
    then after.restored == c.restored + {selection.host} && !Busy(after)
    else
      && after.restored == c.restored && IsRestore(after, c.nextId)
      && after.tasks[c.nextId].wait.selection == selection && after.tasks[c.nextId].wait.action.Add?
      && Lacks(selection, listed, [after.tasks[c.nextId].wait.action.path] + after.tasks[c.nextId].wait.purpose.remaining)
  }

  lemma FinishFree(c: Client, superseded: seq<Operation>)
    requires Old(c, superseded) && !Busy(c)
    ensures !Busy(Finish(c, superseded)) && Finish(c, superseded).restored == c.restored
  {
    FinishEnds(c, superseded);
  }

  lemma RestoreDecides(c: Client, selection: Selection, listed: Registrations, superseded: seq<Operation>)
    requires TasksOk(c) && Old(c, superseded) && !Busy(c) && c.selection == Some(selection)
    ensures Decided(c, selection, listed, RestorePrevious(c, selection, listed, superseded))
  {
    FinishFree(c, superseded);
    FinishFree(c.(ledgerErrorShown := true), superseded);
    FinishFree(c.(restored := c.restored + {selection.host}), superseded);
    hide TasksOk, Old, Finish, Busy;
    if selection.previousRoots.Some? {
      var missing := Filter(selection.previousRoots.value, path => path !in listed);
      FilterMembers(selection.previousRoots.value, path => path !in listed);
      if missing != [] {
        assert missing == [missing[0]] + missing[1..];
        StartChangeOk(c, selection, Add(missing[0]), Restore(missing[1..], listed), superseded);
        assert missing[0] in missing;
      }
    }
  }

  lemma AcceptedIsReady(c: Client, id: nat, listed: Registrations)
    requires TasksOk(c) && IsListing(c, id) && Accepts(c, c.tasks[id].wait)
    ensures var due := Resume(c, id).(status := Ready, memberships := Some(listed), restoreDue := false);
            TasksOk(due) && Old(due, c.tasks[id].superseded) && !Busy(due) && due.selection == Some(c.tasks[id].wait.selection)
  {
    var r := Resume(c, id);
    var due := r.(status := Ready, memberships := Some(listed), restoreDue := false);
    assert TaskOk(c, id, c.tasks[id]);
    ResumeOk(c, id);
    forall i | i in due.tasks
      ensures TaskOk(due, i, due.tasks[i])
    {
      assert TaskOk(r, i, r.tasks[i]);
    }
  }

  lemma ListedDecides(c: Client, id: nat, listed: Registrations)
    requires TasksOk(c) && IsListing(c, id) && Accepts(c, c.tasks[id].wait) && c.restoreDue
    ensures Decided(c, c.tasks[id].wait.selection, listed, Listed(c, id, listed))
  {
    AcceptedIsReady(c, id, listed);
    hide TasksOk, RestorePrevious;
    RestoreDecides(Resume(c, id).(status := Ready, memberships := Some(listed), restoreDue := false), c.tasks[id].wait.selection, listed,
                   c.tasks[id].superseded);
  }

  /** Every accepted listing for which a restore is due decides it: without previous roots, or
      for a host in the ledger, nothing starts; if it holds all previous roots the host enters
      the ledger; otherwise a restore starts, and what it is to add are the roots the listing
      lacks. */
  lemma ListingDecides(start: World, events: seq<Event>, id: nat)
    requires IsStart(start) && Enabled(Run(start, events), ListAnswer(id))
    requires var c := Run(start, events).client; c.restoreDue && Accepts(c, c.tasks[id].wait)
    ensures var w := Run(start, events);
            Decided(w.client, w.client.tasks[id].wait.selection, w.served[id].listed, Next(w, ListAnswer(id)).client)
  {
    RunInv(start, events);
    var w := Run(start, events);
    hide Run, TasksOk, Decided, Listed;
    ListedDecides(w.client, id, w.served[id].listed);
  }

  // ----- what is due, and what is recorded -----

  /** An accepted listing decides whatever restore is due. */
  predicate IsAccepted(w: World, e: Event) {
    e.ListAnswer? && Enabled(w, e) && Accepts(w.client, w.client.tasks[e.id].wait)
  }

  lemma ListedDue(c: Client, id: nat, listed: Registrations)
    requires IsListing(c, id)
    ensures Listed(c, id, listed).restoreDue <==> c.restoreDue && !Accepts(c, c.tasks[id].wait)
    ensures ListFailed(c, id).restoreDue == c.restoreDue
  {
    var superseded := c.tasks[id].superseded;
    var r := Resume(c, id);
    FinishKeeps(r, superseded);
    FinishKeeps(r.(relistAfterOperation := true), superseded);
    FinishKeeps(r.(status := Error), superseded);
    SendKeeps(r, superseded);
    hide Finish, SendListing;
    var accepted := r.(status := Ready, memberships := Some(listed));
    FinishKeeps(accepted, superseded);
    RestoreDue(accepted.(restoreDue := false), c.tasks[id].wait.selection, listed, superseded);
    hide RestorePrevious;
  }

  lemma RestoreDue(c: Client, selection: Selection, listed: Registrations, superseded: seq<Operation>)
    ensures RestorePrevious(c, selection, listed, superseded).restoreDue == c.restoreDue
  {
    FinishKeeps(c, superseded);
    FinishKeeps(c.(ledgerErrorShown := true), superseded);
    FinishKeeps(c.(restored := c.restored + {selection.host}), superseded);
    hide Finish;
  }

  lemma SettleKeeps(c: Client, selection: Selection, superseded: seq<Operation>)
    ensures Keeps(c, SettleSuperseded(c, selection, superseded))
  {
    FinishKeeps(c, superseded);
    FinishKeeps(c.(relistAfterOperation := true), superseded);
    SendKeeps(c, superseded);
    hide Finish, SendListing;
  }

  lemma ChangeDue(c: Client, id: nat, answer: Registrations)
    requires IsChange(c, id)
    ensures Changed(c, id, answer).restoreDue == c.restoreDue && ChangeFailed(c, id).restoreDue == c.restoreDue
  {
    var Task(Change(operation, selection, _, purpose), superseded) := c.tasks[id];
    var r := Resume(c, id);
    SettleKeeps(r, selection, [operation] + superseded);
    EndKeeps(r.(memberships := Some(answer), status := Ready), operation, superseded);
    EndKeeps(r.(memberships := Some(answer), restored := c.restored + {selection.host}), operation, superseded);
    EndKeeps(if purpose.Restore? then r.(memberships := Some(purpose.latest)) else r, operation, superseded);
    hide SettleSuperseded, EndChange;
  }

  /** A restore is due from a selection or refresh on, until a listing is accepted. */
  lemma DueExactly(w: World, e: Event)
    ensures Next(w, e).client.restoreDue
        <==> if e.SelectHost? then e.selection.Some?
             else (e.RefreshView? && w.client.selection.Some?) || (w.client.restoreDue && !IsAccepted(w, e))
  {
    hide Listed, ListFailed, Changed, ChangeFailed;
    if Enabled(w, e) {
      match e
      case ListAnswer(id) => ListedDue(w.client, id, w.served[id].listed);
      case ListError(id) => ListedDue(w.client, id, {});
      case ChangeAnswer(id) => ChangeDue(w.client, id, w.applied[id]);
      case ChangeError(id) => ChangeDue(w.client, id, {});
      case _ =>
    }
  }

  // ----- moves and failed listings -----

  /** A move of the roots outdates every listing on its way, and changes nothing else. */
  lemma MoveRejects(start: World, events: seq<Event>, possible: bool, id: nat)
    requires IsStart(start)
    ensures var c, d := Run(start, events).client, Next(Run(start, events), MovedRoot(possible)).client;
            && d == c.(generation := d.generation)
            && (IsListing(c, id) && possible && c.selection.Some? && c.memberships.Some? ==> !Accepts(d, d.tasks[id].wait))
  {
    RunInv(start, events);
    var c := Run(start, events).client;
    hide Run;
    if IsListing(c, id) {
      assert TaskOk(c, id, c.tasks[id]);
    }
  }

  /** The end of a call fails no view. */
  predicate Calm(c: Client, c': Client) {
    c'.status == c.status || c'.status == Loading
  }

  lemma FinishCalm(c: Client, superseded: seq<Operation>)
    ensures Calm(c, Finish(c, superseded))
    decreases |superseded|, 0
  {
    if superseded != [] {
      EndCalm(c, superseded[0], superseded[1..]);
    }
  }

  lemma SendCalm(c: Client, superseded: seq<Operation>)
    ensures Calm(c, SendListing(c, superseded))
    decreases |superseded|, 1
  {
    if c.selection.None? {
      FinishCalm(c, superseded);
    }
  }

  lemma EndCalm(c: Client, operation: Operation, superseded: seq<Operation>)
    ensures Calm(c, EndChange(c, operation, superseded))
    decreases |superseded|, 3
  {
    var ended := c.(generation := c.generation + 1, operation := if c.operation == Some(operation) then None else c.operation);
    var free := ended.(mutating := false);
    if operation.epoch != c.epoch {
      FinishCalm(ended, superseded);
    } else if !free.relistAfterOperation || Busy(free) {
      FinishCalm(free, superseded);
    } else {
      SendCalm(free.(relistAfterOperation := false), superseded);
    }
  }

  lemma FinishSame(c: Client, superseded: seq<Operation>)
    requires Old(c, superseded)
    ensures Finish(c, superseded).status == c.status
  {
    FinishEnds(c, superseded);
  }

  lemma FailsExactly(c: Client, id: nat)
    requires TasksOk(c) && IsListing(c, id)
    ensures ListFailed(c, id).status == if IsLatest(c, id) then Error else c.status
  {
    assert TaskOk(c, id, c.tasks[id]);
    FinishSame(Resume(c, id), c.tasks[id].superseded);
    FinishSame(Resume(c, id).(status := Error), c.tasks[id].superseded);
    hide Finish;
  }

  lemma ListedCalm(c: Client, id: nat, listed: Registrations)
    requires IsListing(c, id) && c.status != Error
    ensures Listed(c, id, listed).status != Error
  {
    var superseded := c.tasks[id].superseded;
    var r := Resume(c, id);
    var accepted := r.(status := Ready, memberships := Some(listed));
    var due := accepted.(restoreDue := false);
    FinishCalm(r, superseded);
    FinishCalm(r.(relistAfterOperation := true), superseded);
    SendCalm(r, superseded);
    FinishCalm(accepted, superseded);
    RestoreCalm(due, c.tasks[id].wait.selection, listed, superseded);
    hide Finish, SendListing, RestorePrevious;
  }

  lemma RestoreCalm(c: Client, selection: Selection, listed: Registrations, superseded: seq<Operation>)
    ensures Calm(c, RestorePrevious(c, selection, listed, superseded))
  {
    FinishCalm(c, superseded);
    FinishCalm(c.(ledgerErrorShown := true), superseded);
    FinishCalm(c.(restored := c.restored + {selection.host}), superseded);
    hide Finish;
  }

  lemma ChangeCalm(c: Client, id: nat, answer: Registrations)
    requires IsChange(c, id) && c.status != Error
    ensures Changed(c, id, answer).status != Error && ChangeFailed(c, id).status != Error
  {
    var Task(Change(operation, selection, _, purpose), superseded) := c.tasks[id];
    var r := Resume(c, id);
    SettleCalm(r, selection, [operation] + superseded);
    EndCalm(r.(memberships := Some(answer), status := Ready), operation, superseded);
    EndCalm(r.(memberships := Some(answer), restored := c.restored + {selection.host}), operation, superseded);
    EndCalm(if purpose.Restore? then r.(memberships := Some(purpose.latest)) else r, operation, superseded);
    hide SettleSuperseded, EndChange;
  }

  lemma SettleCalm(c: Client, selection: Selection, superseded: seq<Operation>)
    ensures Calm(c, SettleSuperseded(c, selection, superseded))
  {
    FinishCalm(c, superseded);
    FinishCalm(c.(relistAfterOperation := true), superseded);
    SendCalm(c, superseded);
    hide Finish, SendListing;
  }

  lemma StepFails(w: World, e: Event)
    requires TasksOk(w.client) && w.client.status != Error && Enabled(w, e)
    ensures Step(w.client, w, e).status == Error <==> e.ListError? && IsLatest(w.client, e.id)
  {
    hide TasksOk, Listed, ListFailed, Changed, ChangeFailed, SendListing;
    match e
    case ListAnswer(id) => ListedCalm(w.client, id, w.served[id].listed);
    case ListError(id) => FailsExactly(w.client, id);
    case ChangeAnswer(id) => ChangeCalm(w.client, id, w.applied[id]);
    case ChangeError(id) => ChangeCalm(w.client, id, {});
    case SelectHost(selection) => SendCalm(PointAt(w.client, selection).(restoreDue := true), []);
    case RefreshView => SendCalm(w.client.(restoreDue := true), []);
    case _ =>
  }

  /** In every run the view comes to show an error exactly when the latest listing fails. */
  lemma ErrorExactly(start: World, events: seq<Event>, e: Event)
    requires IsStart(start) && Run(start, events).client.status != Error
    ensures var w := Run(start, events);
            Next(w, e).client.status == Error <==> e.ListError? && IsLatest(w.client, e.id)
  {
    RunInv(start, events);
    var w := Run(start, events);
    hide Run, TasksOk, Step;
    hide Next;
    NextIsStep(w, e);
    if Enabled(w, e) {
      StepFails(w, e);
    }
  }

  lemma NextIsStep(w: World, e: Event)
    ensures Next(w, e).client == if Enabled(w, e) then Step(w.client, w, e) else w.client
  {
    hide Listed, ListFailed, Changed, ChangeFailed, Select, Refresh, Mutate, MoveRoot;
  }

  // ----- a restore undone by a command from before -----

  function Again(host: HostId, path: Path): Selection {
    Selection(host, Some([path]))
  }

  /** A removal still on its way as the host is selected again. */
  function RemovalFirst(host: HostId, path: Path): seq<Event> {
    FirstListing(host) + [MutateRoot(Action.Remove(path), true)] + [SelectHost(Some(Again(host, path)))]
  }

  function RemovalTask(host: HostId, path: Path): Task {
    Task(Change(Operation(1, 1), Selection(host, None), Action.Remove(path), Mutation), [])
  }

  lemma RemovalSent(host: HostId, path: Path)
    ensures Run(Start({}, false, false), RemovalFirst(host, path))
         == World(Client(2, 1, Some(Operation(1, 1)), 2, true, false, Some(Again(host, path)), Loading, Some({}), false, {}, false, false, false,
                         map[1 := RemovalTask(host, path), 2 := Task(Listing(2, 1, 2, Again(host, path)), [])], 3),
                  map[], map[], map[], {})
  {
    var s := Start({}, false, false);
    FirstListed(host);
    RunThen(s, FirstListing(host), MutateRoot(Action.Remove(path), true));
    RunThen(s, FirstListing(host) + [MutateRoot(Action.Remove(path), true)], SelectHost(Some(Again(host, path))));
  }

  function RestoreTask(host: HostId, path: Path): Task {
    Task(Change(Operation(2, 3), Again(host, path), Add(path), Restore([], {})), [])
  }

  lemma OneRoot(c: Client, host: HostId, path: Path, listed: Registrations)
    requires !AlreadyRestored(c, host) && path !in listed
    ensures RestorePrevious(c, Again(host, path), listed, []) == StartChange(c, Again(host, path), Add(path), Restore([], listed), [])
  {
    assert [path][..0] == [];
    assert Filter([path], p => p !in listed) == [path];
    assert [path][1..] == [];
  }

  lemma RestoreSent(host: HostId, path: Path)
    ensures var w := Run(Start({}, false, false), RemovalFirst(host, path) + [Serve(2)] + [ListAnswer(2)]);
            && w.client.tasks == map[1 := RemovalTask(host, path), 3 := RestoreTask(host, path)]
            && w.client.epoch == 2 && !w.client.relistAfterOperation
            && w.hosts == map[] && w.applied == map[] && w.doubt == {}
  {
    var s := Start({}, false, false);
    RemovalSent(host, path);
    RunThen(s, RemovalFirst(host, path), Serve(2));
    RunThen(s, RemovalFirst(host, path) + [Serve(2)], ListAnswer(2));
    var w := Next(Run(s, RemovalFirst(host, path)), Serve(2));
    assert w.served == map[2 := Served({}, true)];
    var r := Resume(w.client, 2);
    assert r.tasks == map[1 := RemovalTask(host, path)];
    OneRoot(r.(status := Ready, memberships := Some({}), restoreDue := false), host, path, {});
  }

  /** A removal sent on an earlier connection is applied after the restore's last command: the
      restore ends, and the host lacks the root, although nobody else touched it. */
  lemma RestoreUndone(host: HostId, path: Path)
    ensures var w := Run(Start({}, false, false), RemovalFirst(host, path) + [Serve(2)] + [ListAnswer(2)] + [Apply(3)] + [Apply(1)]);
            && Enabled(w, ChangeAnswer(3)) && IsRestore(w.client, 3) && w.client.tasks[3] == RestoreTask(host, path)
            && host !in w.doubt && !w.client.relistAfterOperation && path !in Reg(w, host)
  {
    var s, events := Start({}, false, false), RemovalFirst(host, path) + [Serve(2)] + [ListAnswer(2)];
    RestoreSent(host, path);
    RunThen(s, events, Apply(3));
    RunThen(s, events + [Apply(3)], Apply(1));
  }
}
