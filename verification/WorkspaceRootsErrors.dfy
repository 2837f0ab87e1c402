/** src/hostWorkspaceRoots.ts: what a change that is answered with an error leaves behind. */
module WorkspaceRootsErrors {
  import opened Collections
  import opened HostWorkspaceRoots
  import opened WorkspaceRootsRuns

  // ----- when the registrations are read again -----

  /** A re-read was sent by this step, or is owed after it. */
  predicate Rereads(before: Client, after: Client) {
    after.listSequence > before.listSequence || after.relistAfterOperation
  }

  predicate InView(c: Client, host: HostId) {
    c.selection.Some? && c.selection.value.host == host
  }

  lemma EndRereads(c: Client, operation: Operation, superseded: seq<Operation>)
    requires Old(c, superseded) && operation.epoch == c.epoch && c.operation == Some(operation) && c.selection.Some?
    ensures Rereads(c, EndChange(c, operation, superseded)) <==> c.relistAfterOperation
  {
    var ended := c.(generation := c.generation + 1, operation := None, mutating := false);
    FinishEnds(ended, superseded);
    assert EndChange(c, operation, superseded) == FlushRelist(ended, superseded);
    assert FlushRelist(ended, superseded)
        == if !c.relistAfterOperation then Finish(ended, superseded) else SendListing(ended.(relistAfterOperation := false), superseded);
  }

  lemma SettleRereads(c: Client, selection: Selection, superseded: seq<Operation>)
    requires Old(c, superseded)
    ensures Rereads(c, SettleSuperseded(c, selection, superseded)) <==> c.relistAfterOperation || InView(c, selection.host)
  {
    FinishEnds(c, superseded);
    FinishEnds(c.(relistAfterOperation := true), superseded);
  }

  /** After an error the registrations are read again exactly when a re-read was owed already,
      or the change is one of an earlier epoch and its host is still in view. */
  lemma ErrorRereadsExactly(start: World, events: seq<Event>, id: nat)
    requires IsStart(start) && Enabled(Run(start, events), ChangeError(id))
    ensures var c := Run(start, events).client;
            Rereads(c, Next(Run(start, events), ChangeError(id)).client) <==>
              c.relistAfterOperation || (!Current(c, id) && InView(c, c.tasks[id].wait.selection.host))
  {
    RunInv(start, events);
    var c := Run(start, events).client;
    hide Run;
    var Task(Change(operation, selection, _, purpose), superseded) := c.tasks[id];
    assert TaskOk(c, id, c.tasks[id]);
    var r := Resume(c, id);
    if operation.epoch != c.epoch {
      SettleRereads(r, selection, [operation] + superseded);
    } else {
      EndRereads(if purpose.Restore? then r.(memberships := Some(purpose.latest)) else r, operation, superseded);
    }
    hide SettleSuperseded, EndChange;
  }

  // ----- what the view then shows -----

  /** What the view shows once the change has failed. */
  function ShownAfterError(c: Client, id: nat): Option<Registrations>
    requires IsChange(c, id)
  {
    var purpose := c.tasks[id].wait.purpose;
    if purpose.Restore? then Some(purpose.latest) else c.memberships
  }

  /** Somebody else changed the host, or a listing that will tell is coming. */
  ghost predicate Disturbed(c: Client, w: World, id: nat)
    requires IsChange(c, id)
  {
    var wait := c.tasks[id].wait;
    || wait.selection.host in w.doubt || c.relistAfterOperation || AppliedOther(c, w, wait.selection.host, id)
    || (wait.purpose.Mutation? && LatestInFlight(c))
  }

  /** An applied command has made of what the view shows what the host now answers. */
  ghost predicate Expected(c: Client, w: World, id: nat)
    requires IsChange(c, id)
  {
    var wait := c.tasks[id].wait;
    var shown := ShownAfterError(c, id);
    id in w.applied && shown.Some? && (wait.purpose.Mutation? ==> c.status == Ready) ==>
      w.applied[id] == Effect(wait.action, shown.value) || Disturbed(c, w, id)
  }

  ghost predicate AllExpected(c: Client, w: World) {
    forall id | Current(c, id) :: Expected(c, w, id)
  }

  // ----- every step keeps the expectation -----

  /** What a running change expects survives a step that leaves it waiting. */
  lemma Stays(c: Client, w: World, d: Client, after: World, i: nat)
    requires Current(c, i) && IsChange(d, i) && d.tasks[i] == c.tasks[i] && Expected(c, w, i)
    requires (i in after.applied ==> i in w.applied && after.applied[i] == w.applied[i]) && w.doubt <= after.doubt
    requires c.relistAfterOperation ==> d.relistAfterOperation
    requires d.relistAfterOperation || forall id | IsApplied(c, w, c.tasks[i].wait.selection.host, id) && id != i ::
                                         IsApplied(d, after, c.tasks[i].wait.selection.host, id)
    requires c.tasks[i].wait.purpose.Mutation? && d.status == Ready ==> c.status == Ready && d.memberships == c.memberships
    requires c.tasks[i].wait.purpose.Mutation? && d.status == Ready && LatestInFlight(c) ==> LatestInFlight(d) || d.relistAfterOperation
    ensures Expected(d, after, i)
  {
    var host := c.tasks[i].wait.selection.host;
    if AppliedOther(c, w, host, i) && !d.relistAfterOperation {
      var id :| id != i && IsApplied(c, w, host, id);
      assert id != i && IsApplied(d, after, host, id);
    }
  }

  lemma EnvExpected(w: World, e: Event)
    requires Inv(w.client, w) && Enabled(w, e) && AllExpected(w.client, w) && (e.Serve? || e.Outside?)
    ensures AllExpected(Next(w, e).client, Next(w, e))
  {
    forall i | Current(w.client, i)
      ensures Expected(w.client, Next(w, e), i)
    {
      Stays(w.client, w, w.client, Next(w, e), i);
    }
  }

  /** A command is applied while the view, or what the restore has so far, is what the host has. */
  lemma ApplyExpected(w: World, id: nat)
    requires Inv(w.client, w) && Enabled(w, Apply(id)) && AllExpected(w.client, w)
    ensures AllExpected(w.client, Next(w, Apply(id)))
  {
    var c, after := w.client, Next(w, Apply(id));
    forall i | Current(c, i)
      ensures Expected(c, after, i)
    {
      var host := c.tasks[i].wait.selection.host;
      assert TaskOk(c, i, c.tasks[i]);
      if i != id {
        Stays(c, w, c, after, i);
      } else {
        assert Knows(c, w, i);
        if AppliedPending(c, w, host) {
          var other :| IsApplied(c, w, host, other);
          assert other != i && IsApplied(c, after, host, other);
        }
        if c.tasks[i].wait.purpose.Mutation? {
          assert !RestoreRunning(c);
        }
      }
    }
  }

  /** Another selection leaves no change of its epoch. */
  lemma SelectEnds(w: World, selection: Option<Selection>)
    requires Inv(w.client, w)
    ensures forall i :: !Current(Select(w.client, selection), i)
  {
    forall i | i in w.client.tasks
      ensures !Current(Select(w.client, selection), i)
    {
      assert TaskOk(w.client, i, w.client.tasks[i]);
    }
  }

  lemma SelectExpected(w: World, selection: Option<Selection>)
    requires Inv(w.client, w)
    ensures AllExpected(Select(w.client, selection), w)
  {
    SelectEnds(w, selection);
    hide Inv, Select, Expected;
  }

  lemma RefreshExpected(w: World)
    requires Inv(w.client, w) && AllExpected(w.client, w)
    ensures AllExpected(Refresh(w.client), w)
  {
    var c, d := w.client, Refresh(w.client);
    forall i | Current(d, i)
      ensures Expected(d, w, i)
    {
      if c.selection.Some? {
        assert IsLatest(d, c.nextId);
      }
      if i in c.tasks {
        assert TaskOk(c, i, c.tasks[i]);
        Stays(c, w, d, w, i);
      }
    }
  }

  lemma MutateExpected(w: World, action: Action, valid: bool)
    requires Inv(w.client, w) && AllExpected(w.client, w)
    ensures AllExpected(Mutate(w.client, action, valid), w)
  {
    var c, d := w.client, Mutate(w.client, action, valid);
    if d != c {
      forall i | Current(d, i)
        ensures Expected(d, w, i)
      {
        if i in c.tasks {
          assert TaskOk(c, i, c.tasks[i]);
        }
      }
    }
  }

  lemma MovedExpected(w: World, possible: bool)
    requires Inv(w.client, w) && AllExpected(w.client, w)
    ensures AllExpected(MoveRoot(w.client, possible), w)
  {
    var c, d := w.client, MoveRoot(w.client, possible);
    forall i | Current(d, i)
      ensures Expected(d, w, i)
    {
      if LatestInFlight(c) {
        var l :| IsLatest(c, l);
        assert IsLatest(d, l);
      }
      Stays(c, w, d, w, i);
    }
  }

  lemma SameEvidence(c: Client, w: World, after: World)
    requires w.applied == after.applied && w.doubt == after.doubt
    ensures AllExpected(c, w) ==> AllExpected(c, after)
  {
    Evidence(c, w, c, after);
  }

  lemma CallExpected(w: World, e: Event)
    requires Inv(w.client, w) && AllExpected(w.client, w)
    requires e.SelectHost? || e.RefreshView? || e.MutateRoot? || e.MovedRoot?
    ensures AllExpected(Next(w, e).client, Next(w, e))
  {
    hide Inv, AllExpected, Select, Refresh, Mutate, MoveRoot;
    match e {
      case SelectHost(selection) => SelectExpected(w, selection);
      case RefreshView => RefreshExpected(w);
      case MutateRoot(action, valid) => MutateExpected(w, action, valid);
      case MovedRoot(possible) => MovedExpected(w, possible);
    }
    SameEvidence(Next(w, e).client, w, Next(w, e));
  }

  // ----- answers -----

  /** The end of superseded changes, after a call `id` was answered. */
  lemma FinishExpected(w: World, d: Client, after: World, id: nat, i: nat)
    requires Inv(w.client, w) && id in w.client.tasks && i != id && Current(w.client, i) && Expected(w.client, w, i)
    requires d.tasks == w.client.tasks - {id} && d.epoch == w.client.epoch && d.listSequence == w.client.listSequence
    requires d.memberships == w.client.memberships && (d.status == w.client.status || d.status == Error)
    requires w.client.relistAfterOperation ==> d.relistAfterOperation
    requires after.applied == w.applied - {id} && w.doubt <= after.doubt
    requires d.relistAfterOperation || (IsChange(w.client, id) ==> w.client.tasks[id].wait.selection.host != w.client.tasks[i].wait.selection.host)
    requires d.relistAfterOperation || d.status == Error || !IsLatest(w.client, id)
    ensures Expected(d, after, i)
  {
    var c := w.client;
    assert TaskOk(c, i, c.tasks[i]);
    if LatestInFlight(c) && !IsLatest(c, id) {
      var l :| IsLatest(c, l);
      assert IsLatest(d, l);
    }
    if IsLatest(c, id) {
      assert forall l | IsLatest(c, l) :: l == id;
    }
    Stays(c, w, d, after, i);
  }

  /** With no change running, none but a new one can be running after an answer. */
  lemma IdleExpected(w: World, d: Client, after: World)
    requires Inv(w.client, w) && !Busy(w.client) && d.epoch == w.client.epoch
    requires forall i | i in d.tasks && i < w.client.nextId :: i in w.client.tasks && d.tasks[i] == w.client.tasks[i]
    requires forall i | i in after.applied :: i in w.applied
    ensures AllExpected(d, after)
  {
    forall i: nat | Current(d, i)
      ensures Expected(d, after, i)
    {
    }
  }

  /** A step of the running change itself: it ends, or goes on with no answer yet. */
  lemma OwnExpected(w: World, d: Client, after: World, id: nat)
    requires Inv(w.client, w) && Current(w.client, id) && d.epoch == w.client.epoch
    requires forall i | i in d.tasks && i < w.client.nextId && i != id :: i in w.client.tasks && d.tasks[i] == w.client.tasks[i]
    requires after.applied == w.applied - {id}
    ensures AllExpected(d, after)
  {
    assert TaskOk(w.client, id, w.client.tasks[id]);
    forall i: nat | Current(d, i)
      ensures Expected(d, after, i)
    {
      if i < w.client.nextId && i != id {
        assert TaskOk(w.client, i, w.client.tasks[i]);
      }
    }
  }

  /** Old calls are left alone. */
  predicate OthersWait(c: Client, d: Client, id: nat) {
    d.epoch == c.epoch && forall i | i in d.tasks && i < c.nextId && i != id :: i in c.tasks && d.tasks[i] == c.tasks[i]
  }

  /** Nothing is written and the other calls are left alone. */
  predicate Waits(c: Client, d: Client) {
    && d.memberships == c.memberships && d.epoch == c.epoch
    && forall i | i in d.tasks && i < c.nextId :: i in c.tasks && d.tasks[i] == c.tasks[i]
  }

  lemma FinishWaits(c: Client, superseded: seq<Operation>)
    requires Old(c, superseded)
    ensures Waits(c, Finish(c, superseded))
  {
    FinishEnds(c, superseded);
    hide Finish;
  }

  lemma SendWaits(c: Client, superseded: seq<Operation>)
    requires Old(c, superseded)
    ensures Waits(c, SendListing(c, superseded))
  {
    FinishWaits(c, superseded);
    hide Finish;
  }

  /** The end of the running change. */
  lemma EndWaits(c: Client, operation: Operation, superseded: seq<Operation>)
    requires Old(c, superseded) && operation.epoch == c.epoch
    ensures Waits(c, EndChange(c, operation, superseded))
  {
    var ended := c.(generation := c.generation + 1, operation := if c.operation == Some(operation) then None else c.operation,
                    mutating := false);
    var flushed := ended.(relistAfterOperation := false);
    FinishWaits(ended, superseded);
    SendWaits(flushed, superseded);
    assert EndChange(c, operation, superseded) == FlushRelist(ended, superseded);
    assert FlushRelist(ended, superseded) in {Finish(ended, superseded), SendListing(flushed, superseded)};
    hide Finish, EndChange, FlushRelist, SendListing;
  }

  lemma TaskFacts(c: Client, w: World, id: nat)
    requires Inv(c, w) && id in c.tasks
    ensures Old(c, c.tasks[id].superseded) && id < c.nextId && (IsListing(c, id) ==> id !in w.applied)
    ensures Current(c, id) ==> c.selection == Some(c.tasks[id].wait.selection)
    ensures IsChange(c, id) && !Current(c, id) ==> Old(c, [c.tasks[id].wait.operation] + c.tasks[id].superseded)
  {
    assert TaskOk(c, id, c.tasks[id]);
  }

  lemma NextIs(w: World, e: Event)
    requires Enabled(w, e) && (e.ChangeAnswer? || e.ChangeError?)
    ensures e.ChangeAnswer? ==> Next(w, e).client == Changed(w.client, e.id, w.applied[e.id])
    ensures e.ChangeError? ==> Next(w, e).client == ChangeFailed(w.client, e.id)
    ensures Next(w, e).applied == w.applied - {e.id} && w.doubt <= Next(w, e).doubt
  {
    hide ChangeFailed, Changed;
  }

  lemma OwnAnswerExpected(w: World, e: Event)
    requires Inv(w.client, w) && Enabled(w, e) && (e.ChangeAnswer? || e.ChangeError?) && Current(w.client, e.id)
    ensures AllExpected(Next(w, e).client, Next(w, e))
  {
    hide Inv, EndChange, Finish, FlushRelist, SendListing, SettleSuperseded, Expected, AllExpected, Next;
    NextIs(w, e);
    var c, id := w.client, e.id;
    var Task(Change(operation, selection, _, purpose), superseded) := c.tasks[id];
    TaskFacts(c, w, id);
    var r := Resume(c, id);
    if e.ChangeError? {
      EndWaits(if purpose.Restore? then r.(memberships := Some(purpose.latest)) else r, operation, superseded);
    } else if purpose.Mutation? {
      EndWaits(r.(memberships := Some(w.applied[id]), status := Ready), operation, superseded);
    } else if purpose.remaining == [] {
      EndWaits(r.(memberships := Some(w.applied[id]), restored := c.restored + {selection.host}), operation, superseded);
    }
    OwnExpected(w, Next(w, e).client, Next(w, e), id);
  }

  lemma SettleIs(c: Client, selection: Selection, superseded: seq<Operation>)
    requires Old(c, superseded)
    ensures var d := SettleSuperseded(c, selection, superseded);
            && (!InView(c, selection.host) ==> Ended(c, d, |superseded|))
            && (InView(c, selection.host) && Busy(c) ==> Ended(c.(relistAfterOperation := true), d, |superseded|))
            && (InView(c, selection.host) && !Busy(c) ==> d == SendListing(c, superseded))
  {
    FinishEnds(c, superseded);
    FinishEnds(c.(relistAfterOperation := true), superseded);
  }

  /** What the answer to a superseded change leaves of the calls and of the view. */
  lemma LateSettled(c: Client, w: World, id: nat)
    requires Inv(c, w) && IsChange(c, id) && !Current(c, id)
    ensures var Task(Change(operation, selection, _, _), superseded) := c.tasks[id];
            var d := SettleSuperseded(Resume(c, id), selection, [operation] + superseded);
            && OthersWait(c, d, id) && id !in d.tasks
            && (Busy(c) ==> d == c.(tasks := c.tasks - {id}, generation := d.generation, operation := d.operation,
                                    relistAfterOperation := c.relistAfterOperation || InView(c, selection.host)))
  {
    hide Inv, Finish;
    var Task(Change(operation, selection, _, _), superseded) := c.tasks[id];
    TaskFacts(c, w, id);
    var r, all := Resume(c, id), [operation] + superseded;
    SettleIs(r, selection, all);
    if InView(c, selection.host) && !Busy(c) {
      SentWaits(r, all);
    }
    hide SettleSuperseded, SendListing;
  }

  lemma SentWaits(c: Client, superseded: seq<Operation>)
    requires Old(c, superseded) && c.selection.Some?
    ensures var d := SendListing(c, superseded);
            d.epoch == c.epoch && c.nextId in d.tasks && d.tasks == c.tasks[c.nextId := d.tasks[c.nextId]]
  {
  }

  /** The answer to a superseded change. */
  lemma LateAnswerExpected(w: World, e: Event)
    requires Inv(w.client, w) && AllExpected(w.client, w)
    requires Enabled(w, e) && (e.ChangeAnswer? || e.ChangeError?) && !Current(w.client, e.id)
    ensures AllExpected(Next(w, e).client, Next(w, e))
  {
    hide Inv, Finish, SettleSuperseded, Expected, Next;
    NextIs(w, e);
    LateSettled(w.client, w, e.id);
    var c, after := w.client, Next(w, e);
    if Busy(c) {
      forall i | Current(after.client, i)
        ensures Expected(after.client, after, i)
      {
        TaskFacts(c, w, i);
        FinishExpected(w, after.client, after, e.id, i);
      }
    } else {
      IdleExpected(w, after.client, after);
    }
  }

  lemma ListedIs(c: Client, w: World, id: nat)
    requires Inv(c, w) && IsListing(c, id) && id in w.served && Busy(c)
    ensures var d := Listed(c, id, w.served[id].listed);
            Ended(if IsLatest(c, id) then Resume(c, id).(relistAfterOperation := true) else Resume(c, id), d, |c.tasks[id].superseded|)
  {
    hide Inv;
    TaskFacts(c, w, id);
    FinishEnds(Resume(c, id), c.tasks[id].superseded);
    FinishEnds(Resume(c, id).(relistAfterOperation := true), c.tasks[id].superseded);
    hide Finish;
  }

  lemma ListFailedIs(c: Client, w: World, id: nat)
    requires Inv(c, w) && IsListing(c, id)
    ensures var d := ListFailed(c, id);
            Ended(if IsLatest(c, id) then Resume(c, id).(status := Error) else Resume(c, id), d, |c.tasks[id].superseded|)
  {
    hide Inv;
    TaskFacts(c, w, id);
    FinishEnds(Resume(c, id), c.tasks[id].superseded);
    FinishEnds(Resume(c, id).(status := Error), c.tasks[id].superseded);
    hide Finish;
  }

  lemma ListedExpected(w: World, e: Event)
    requires Inv(w.client, w) && AllExpected(w.client, w) && Enabled(w, e) && (e.ListAnswer? || e.ListError?)
    ensures AllExpected(Next(w, e).client, Next(w, e))
  {
    hide Inv, Listed, ListFailed, Expected;
    var c, id, after := w.client, e.id, Next(w, e);
    TaskFacts(c, w, id);
    if e.ListError? {
      ListFailedIs(c, w, id);
    } else if Busy(c) {
      ListedIs(c, w, id);
    } else {
      ListedWaits(c, w, id);
    }
    if Busy(c) {
      forall i | Current(after.client, i)
        ensures Expected(after.client, after, i)
      {
        FinishExpected(w, after.client, after, id, i);
      }
    } else {
      IdleExpected(w, after.client, after);
    }
  }

  lemma ListedWaits(c: Client, w: World, id: nat)
    requires Inv(c, w) && IsListing(c, id) && id in w.served && !Busy(c)
    ensures OthersWait(c, Listed(c, id, w.served[id].listed), id) && id !in Listed(c, id, w.served[id].listed).tasks
  {
    hide Inv, Listed;
    TaskFacts(c, w, id);
    ListedBranches(c, id, w.served[id].listed);
  }

  lemma ListedBranches(c: Client, id: nat, listed: Registrations)
    requires IsListing(c, id) && id < c.nextId && !Busy(c) && Old(c, c.tasks[id].superseded)
    ensures OthersWait(c, Listed(c, id, listed), id) && id !in Listed(c, id, listed).tasks
  {
    hide Finish, Accepted;
    FinishEnds(Resume(c, id), c.tasks[id].superseded);
    AcceptedWaits(Resume(c, id), c.tasks[id].wait.selection, listed, c.tasks[id].superseded);
  }

  lemma AcceptedWaits(c: Client, selection: Selection, listed: Registrations, superseded: seq<Operation>)
    requires Old(c, superseded)
    ensures var d := Accepted(c, selection, listed, superseded);
            d.epoch == c.epoch && (d.tasks == c.tasks || (c.nextId in d.tasks && d.tasks == c.tasks[c.nextId := d.tasks[c.nextId]]))
  {
    var accepted := c.(status := Ready, memberships := Some(listed));
    var due := accepted.(restoreDue := false);
    FinishEnds(accepted, superseded);
    FinishEnds(due, superseded);
    FinishEnds(due.(ledgerErrorShown := true), superseded);
    FinishEnds(due.(restored := due.restored + {selection.host}), superseded);
    hide Finish;
    if c.restoreDue {
      var d := RestorePrevious(due, selection, listed, superseded);
      assert d.tasks == c.tasks || d.tasks == c.tasks[c.nextId := d.tasks[c.nextId]];
    }
  }

  lemma StepExpected(w: World, e: Event)
    requires Inv(w.client, w) && AllExpected(w.client, w)
    ensures AllExpected(Next(w, e).client, Next(w, e))
  {
    if Enabled(w, e) {
      hide Inv, AllExpected;
      match e
      case Serve(_) => EnvExpected(w, e);
      case Outside(_, _) => EnvExpected(w, e);
      case Apply(id) => ApplyExpected(w, id);
      case ListAnswer(_) => ListedExpected(w, e);
      case ListError(_) => ListedExpected(w, e);
      case ChangeAnswer(id) => if Current(w.client, id) { OwnAnswerExpected(w, e); } else { LateAnswerExpected(w, e); }
      case ChangeError(id) => if Current(w.client, id) { OwnAnswerExpected(w, e); } else { LateAnswerExpected(w, e); }
      case _ => CallExpected(w, e);
    }
  }

  lemma {:induction false} RunExpected(start: World, events: seq<Event>)
    requires IsStart(start)
    ensures AllExpected(Run(start, events).client, Run(start, events))
  {
    hide Next, AllExpected, Inv;
    if events == [] {
      NothingRuns(start);
    } else {
      RunExpected(start, events[..|events| - 1]);
      RunInv(start, events[..|events| - 1]);
      StepExpected(Run(start, events[..|events| - 1]), events[|events| - 1]);
    }
  }

  lemma NothingRuns(start: World)
    requires IsStart(start)
    ensures AllExpected(start.client, start)
  {
  }

  /** A change of the current epoch is answered with an error, nobody else changed its host,
      and no re-read is owed or under way: the view then shows what the host has exactly when
      the command was not applied, or would not have changed what the view shows. */
  lemma ErrorLeavesViewExactly(start: World, events: seq<Event>, id: nat)
    requires IsStart(start) && Current(Run(start, events).client, id) && !Disturbed(Run(start, events).client, Run(start, events), id)
    requires Run(start, events).client.tasks[id].wait.purpose.Mutation? ==> Run(start, events).client.status == Ready
    ensures var w, after := Run(start, events), Next(Run(start, events), ChangeError(id));
            var wait := w.client.tasks[id].wait;
            var shown := ShownAfterError(w.client, id);
            && shown.Some? && after.client.memberships == shown
            && (shown == Some(Reg(after, wait.selection.host)) <==> id !in w.applied || Effect(wait.action, shown.value) == shown.value)
  {
    RunInv(start, events);
    RunExpected(start, events);
    hide Run;
    var w := Run(start, events);
    var c := w.client;
    var Task(Change(operation, selection, _, purpose), superseded) := c.tasks[id];
    assert TaskOk(c, id, c.tasks[id]) && Knows(c, w, id) && Expected(c, w, id);
    ErrorShows(c, w, id);
    if purpose.Mutation? {
      assert !RestoreRunning(c);
    }
  }

  /** What the view shows afterwards; an owed re-read only says it is loading. */
  lemma ErrorShows(c: Client, w: World, id: nat)
    requires Inv(c, w) && c == w.client && Current(c, id)
    ensures Next(w, ChangeError(id)).client.memberships == ShownAfterError(c, id)
  {
    hide Inv, EndChange, Finish, FlushRelist, Next;
    NextIs(w, ChangeError(id));
    var Task(Change(operation, _, _, purpose), superseded) := c.tasks[id];
    TaskFacts(c, w, id);
    EndWaits(if purpose.Restore? then Resume(c, id).(memberships := Some(purpose.latest)) else Resume(c, id), operation, superseded);
  }
}
