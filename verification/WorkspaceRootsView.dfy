/** src/hostWorkspaceRoots.ts: what the runs mean for the view. */
module WorkspaceRootsView {
  import opened Collections
  import opened HostWorkspaceRoots
  import opened WorkspaceRootsRuns

  // ----- no reverted view -----

  /** The counters only go up, and a waiting call is never another one under its number. */
  ghost predicate Grows(before: Client, after: Client) {
    && before.epoch <= after.epoch && before.generation <= after.generation
    && before.listSequence <= after.listSequence && before.nextId <= after.nextId
    && forall id | id in after.tasks && id < before.nextId ::
         id in before.tasks && (IsListing(after, id) ==> after.tasks[id] == before.tasks[id])
  }

  /** The counters an accepted listing compares. */
  predicate Calm(before: Client, after: Client) {
    after.epoch == before.epoch && after.generation == before.generation && after.listSequence == before.listSequence
  }

  /** A step that moves no counter writes nothing and ends no change. */
  ghost predicate Quiet(before: Client, after: Client) {
    Calm(before, after) ==> after.memberships == before.memberships && (Busy(before) ==> Busy(after))
  }

  lemma FinishGrows(c: Client, superseded: seq<Operation>)
    requires Old(c, superseded)
    ensures Grows(c, Finish(c, superseded)) && Quiet(c, Finish(c, superseded))
  {
    FinishEnds(c, superseded);
  }

  lemma SendGrows(c: Client, superseded: seq<Operation>)
    requires Old(c, superseded)
    ensures Grows(c, SendListing(c, superseded)) && Quiet(c, SendListing(c, superseded))
    ensures c.generation <= SendListing(c, superseded).generation
  {
    FinishGrows(c, superseded);
  }

  lemma FlushGrows(c: Client, superseded: seq<Operation>)
    requires Old(c, superseded)
    ensures Grows(c, FlushRelist(c, superseded))
  {
    FinishGrows(c, superseded);
    SendGrows(c.(relistAfterOperation := false), superseded);
  }

  lemma EndGrows(c: Client, operation: Operation, superseded: seq<Operation>)
    requires Old(c, superseded) && operation.epoch == c.epoch
    ensures Grows(c, EndChange(c, operation, superseded))
    ensures c.generation < EndChange(c, operation, superseded).generation
  {
    FlushGrows(c.(generation := c.generation + 1,
                  operation := if c.operation == Some(operation) then None else c.operation, mutating := false), superseded);
  }

  lemma SettleGrows(c: Client, selection: Selection, superseded: seq<Operation>)
    requires Old(c, superseded)
    ensures Grows(c, SettleSuperseded(c, selection, superseded))
    ensures Quiet(c, SettleSuperseded(c, selection, superseded))
  {
    FinishGrows(c, superseded);
    FinishGrows(c.(relistAfterOperation := true), superseded);
  }

  lemma RestoreGrows(c: Client, selection: Selection, listed: Registrations, superseded: seq<Operation>)
    requires Old(c, superseded)
    ensures Grows(c, RestorePrevious(c, selection, listed, superseded))
  {
    FinishGrows(c, superseded);
    FinishGrows(c.(ledgerErrorShown := true), superseded);
    FinishGrows(c.(restored := c.restored + {selection.host}), superseded);
  }

  lemma AcceptedGrows(c: Client, selection: Selection, listed: Registrations, superseded: seq<Operation>)
    requires Old(c, superseded)
    ensures Grows(c, Accepted(c, selection, listed, superseded))
  {
    var accepted := c.(status := Ready, memberships := Some(listed));
    if c.restoreDue {
      RestoreGrows(accepted.(restoreDue := false), selection, listed, superseded);
    } else {
      FinishGrows(accepted, superseded);
    }
  }

  /** An answered listing stays gone; only the latest one can write the view. */
  lemma ListedGrows(c: Client, id: nat, listed: Registrations)
    requires TasksOk(c) && IsListing(c, id)
    ensures Grows(c, Listed(c, id, listed)) && id !in Listed(c, id, listed).tasks
    ensures !IsLatest(c, id) ==> Quiet(c, Listed(c, id, listed))
  {
    var Task(Listing(_, _, _, selection), superseded) := c.tasks[id];
    var r := Resume(c, id);
    assert TaskOk(c, id, c.tasks[id]);
    if !IsLatest(c, id) {
      FinishGrows(r, superseded);
    } else if Busy(c) {
      FinishGrows(r.(relistAfterOperation := true), superseded);
    } else if c.tasks[id].wait.generation == c.generation {
      AcceptedGrows(r, selection, listed, superseded);
    }
  }

  lemma ListFailedGrows(c: Client, id: nat)
    requires TasksOk(c) && IsListing(c, id)
    ensures Grows(c, ListFailed(c, id)) && Quiet(c, ListFailed(c, id))
  {
    var r := Resume(c, id);
    assert TaskOk(c, id, c.tasks[id]);
    FinishGrows(r, c.tasks[id].superseded);
    FinishGrows(r.(status := Error), c.tasks[id].superseded);
  }

  lemma ChangedGrows(c: Client, id: nat, answer: Registrations)
    requires TasksOk(c) && IsChange(c, id)
    ensures Grows(c, Changed(c, id, answer)) && Quiet(c, Changed(c, id, answer))
  {
    hide SettleSuperseded, EndChange;
    var Task(Change(operation, selection, _, purpose), superseded) := c.tasks[id];
    var r := Resume(c, id);
    assert TaskOk(c, id, c.tasks[id]);
    if operation.epoch != c.epoch {
      SettleGrows(r, selection, [operation] + superseded);
    } else if purpose.Mutation? {
      EndGrows(r.(memberships := Some(answer), status := Ready), operation, superseded);
    } else if purpose.remaining == [] {
      EndGrows(r.(memberships := Some(answer), restored := c.restored + {selection.host}), operation, superseded);
    }
  }

  lemma ChangeFailedGrows(c: Client, id: nat)
    requires TasksOk(c) && IsChange(c, id)
    ensures Grows(c, ChangeFailed(c, id)) && Quiet(c, ChangeFailed(c, id))
  {
    var Task(Change(operation, selection, _, purpose), superseded) := c.tasks[id];
    var r := Resume(c, id);
    assert TaskOk(c, id, c.tasks[id]);
    if operation.epoch != c.epoch {
      SettleGrows(r, selection, [operation] + superseded);
    } else {
      EndGrows(if purpose.Restore? then r.(memberships := Some(purpose.latest)) else r, operation, superseded);
    }
  }

  lemma SelectGrows(c: Client, selection: Option<Selection>)
    requires TasksOk(c)
    ensures Grows(c, Select(c, selection)) && Quiet(c, Select(c, selection))
  {
    hide SendListing;
    SendGrows(PointAt(c, selection).(restoreDue := true), []);
  }

  lemma RefreshGrows(c: Client)
    ensures Grows(c, Refresh(c)) && Quiet(c, Refresh(c))
  {
    SendGrows(c.(restoreDue := true), []);
  }

  lemma MutateGrows(c: Client, action: Action, valid: bool)
    requires TasksOk(c)
    ensures Grows(c, Mutate(c, action, valid)) && Quiet(c, Mutate(c, action, valid))
  {
  }

  lemma MoveGrows(c: Client, possible: bool)
    ensures Grows(c, MoveRoot(c, possible)) && Quiet(c, MoveRoot(c, possible))
  {
  }

  lemma CallGrows(c: Client, w: World, e: Event)
    requires TasksOk(c) && c == w.client
    requires e.SelectHost? || e.RefreshView? || e.MutateRoot? || e.MovedRoot?
    ensures Grows(c, Step(c, w, e)) && Quiet(c, Step(c, w, e))
  {
    hide TasksOk, Grows, Quiet, Select, Refresh, Mutate, MoveRoot;
    match e
    case SelectHost(selection) => SelectGrows(c, selection);
    case RefreshView => RefreshGrows(c);
    case MutateRoot(action, valid) => MutateGrows(c, action, valid);
    case MovedRoot(possible) => MoveGrows(c, possible);
  }

  lemma StepGrows(c: Client, w: World, e: Event)
    requires TasksOk(c) && c == w.client && Enabled(w, e)
    ensures Grows(c, Step(c, w, e))
    ensures (e.ListAnswer? ==> !IsLatest(c, e.id)) ==> Quiet(c, Step(c, w, e))
    ensures e.ListAnswer? ==> e.id !in Step(c, w, e).tasks
  {
    match e
    case ListAnswer(id) => ListedGrows(c, id, w.served[id].listed);
    case ListError(id) => ListFailedGrows(c, id);
    case ChangeAnswer(id) => ChangedGrows(c, id, w.applied[id]);
    case ChangeError(id) => ChangeFailedGrows(c, id);
    case Serve(_) =>
    case Apply(_) =>
    case Outside(_, _) =>
    case _ => CallGrows(c, w, e);
  }

  lemma NextGrows(w: World, e: Event, id: nat)
    requires Inv(w.client, w)
    ensures Grows(w.client, Next(w, e).client)
    ensures IsLatest(w.client, id) && id in Next(w, e).client.tasks ==> Quiet(w.client, Next(w, e).client)
  {
    if Enabled(w, e) {
      StepGrows(w.client, w, e);
    }
  }

  lemma {:induction false} NumbersGrow(start: World, events: seq<Event>, j: nat)
    requires IsStart(start) && j <= |events|
    ensures Run(start, events[..j]).client.nextId <= Run(start, events).client.nextId
  {
    if j == |events| {
      assert events[..j] == events;
    } else {
      var before := events[..|events| - 1];
      assert before[..j] == events[..j];
      NumbersGrow(start, before, j);
      RunInv(start, before);
      NextGrows(Run(start, before), events[|events| - 1], 0);
    }
  }

  /** An accepted listing was undisturbed: at every moment it was waiting, the view was
      the one it replaces, it was the latest listing of the current epoch, and no change
      was running. So what a change wrote is never replaced by an answer given before. */
  lemma {:induction false} AcceptedUndisturbed(start: World, events: seq<Event>, j: nat, id: nat)
    requires IsStart(start) && j <= |events|
    requires IsListing(Run(start, events[..j]).client, id) && IsListing(Run(start, events).client, id)
    requires Accepts(Run(start, events).client, Run(start, events).client.tasks[id].wait)
    ensures var past, now := Run(start, events[..j]).client, Run(start, events).client;
            && past.tasks[id] == now.tasks[id] && IsLatest(past, id) && Calm(past, now)
            && past.memberships == now.memberships && !Busy(past)
    decreases |events| - j
  {
    if j == |events| {
      assert events[..j] == events;
    } else {
      var before := events[..|events| - 1];
      var w, e := Run(start, before), events[|events| - 1];
      assert before[..j] == events[..j];
      RunInv(start, events[..j]);
      RunInv(start, before);
      NumbersGrow(start, before, j);
      NextGrows(w, e, id);
      assert TaskOk(Run(start, events[..j]).client, id, Run(start, events[..j]).client.tasks[id]);
      assert TaskOk(w.client, id, w.client.tasks[id]);
      AcceptedUndisturbed(start, before, j, id);
    }
  }

  /** A served listing is what its host had at some moment while it waited. */
  ghost predicate ServedAt(start: World, events: seq<Event>, k: nat, id: nat) {
    && k <= |events| && id in Run(start, events).served
    && var w := Run(start, events[..k]);
       IsListing(w.client, id) && Run(start, events).served[id].listed == Reg(w, w.client.tasks[id].wait.selection.host)
  }

  lemma {:induction false} ServedThen(start: World, events: seq<Event>, id: nat)
    requires IsStart(start) && id in Run(start, events).served
    ensures exists k: nat :: ServedAt(start, events, k, id)
  {
    hide Inv, Listed, ListFailed, Changed, ChangeFailed, Select, Refresh, Mutate;
    var before := events[..|events| - 1];
    var w, e := Run(start, before), events[|events| - 1];
    if id in w.served {
      ServedThen(start, before, id);
      var k: nat :| ServedAt(start, before, k, id);
      assert before[..k] == events[..k];
      assert ServedAt(start, events, k, id);
    } else {
      assert ServedAt(start, events, |before|, id);
    }
  }

  /** No reverted view: an accepted listing says what the host had at a moment when every
      change written so far was already in the view it replaces. */
  lemma NoRevertedView(start: World, events: seq<Event>, id: nat)
    requires IsStart(start) && Enabled(Run(start, events), ListAnswer(id))
    requires Accepts(Run(start, events).client, Run(start, events).client.tasks[id].wait)
    ensures exists k: nat :: ServedAt(start, events, k, id)
              && Run(start, events[..k]).client.memberships == Run(start, events).client.memberships
              && Calm(Run(start, events[..k]).client, Run(start, events).client) && !Busy(Run(start, events[..k]).client)
  {
    ServedThen(start, events, id);
    var k: nat :| ServedAt(start, events, k, id);
    AcceptedUndisturbed(start, events, k, id);
  }

  // ----- never stuck -----

  /** `loading` always has something coming that ends it, and one change at a time holds the lock. */
  lemma NeverStuck(start: World, events: seq<Event>)
    requires IsStart(start)
    ensures var c := Run(start, events).client;
            && (c.status == Loading ==> LatestInFlight(c) || c.relistAfterOperation)
            && (c.relistAfterOperation ==> exists id :: Current(c, id))
            && (c.mutating <==> exists id :: Current(c, id))
            && forall i, j | Current(c, i) && Current(c, j) :: i == j
  {
    RunInv(start, events);
    var c := Run(start, events).client;
    forall id | Current(c, id)
      ensures Busy(c) && c.operation.value.id == id
    {
      assert TaskOk(c, id, c.tasks[id]);
    }
  }

  /** Once nothing is under way, the view of a host says so, and shows what the host has
      unless the host was changed behind this client's back. */
  lemma QuiescentView(start: World, events: seq<Event>)
    requires IsStart(start) && Run(start, events).client.tasks == map[]
    ensures var w := Run(start, events);
            var c := w.client;
            && !c.mutating && !c.relistAfterOperation
            && (c.selection.None? <==> c.status == Idle) && c.status != Loading
            && (c.selection.Some? && c.status == Ready ==>
                  && c.memberships.Some?
                  && (c.memberships.value == Reg(w, c.selection.value.host) || c.selection.value.host in w.doubt))
  {
    RunInv(start, events);
  }

  lemma RunThen(start: World, events: seq<Event>, e: Event)
    ensures Run(start, events + [e]) == Next(Run(start, events), e)
  {
    assert (events + [e])[..|events|] == events;
  }

  function FirstListing(host: HostId): seq<Event> {
    [SelectHost(Some(Selection(host, None)))] + [Serve(0)] + [ListAnswer(0)]
  }

  lemma FirstListed(host: HostId)
    ensures var selection := Some(Selection(host, None));
            Run(Start({}, false, false), FirstListing(host))
              == World(Client(1, 0, None, 1, false, false, selection, Ready, Some({}), false, {}, false, false, false, map[], 1),
                       map[], map[], map[], {})
  {
    var start := Start({}, false, false);
    var select := SelectHost(Some(Selection(host, None)));
    RunThen(start, [], select);
    assert [] + [select] == [select];
    RunThen(start, [select], Serve(0));
    RunThen(start, [select] + [Serve(0)], ListAnswer(0));
    var w := Next(Next(start, select), Serve(0));
    assert w.client.tasks == map[0 := Task(Listing(1, 0, 1, Selection(host, None)), [])];
    assert w.served == map[0 := Served({}, true)];
    assert w.client.tasks - {0} == map[] && w.served - {0} == map[];
    assert Next(w, ListAnswer(0)).doubt == {};
  }

  /** An add that the host applied but answered with an error is not read again, although
      nobody else touched the host. */
  lemma AppliedThoughFailed(host: HostId, path: Path)
    ensures var w := Run(Start({}, false, false),
                         FirstListing(host) + [MutateRoot(Add(path), true)] + [Apply(1)] + [ChangeError(1)]);
            && w.client.tasks == map[] && w.client.status == Ready && w.client.memberships == Some({})
            && Reg(w, host) == {path}
  {
    var start, first := Start({}, false, false), FirstListing(host);
    FirstListed(host);
    RunThen(start, first, MutateRoot(Add(path), true));
    RunThen(start, first + [MutateRoot(Add(path), true)], Apply(1));
    RunThen(start, first + [MutateRoot(Add(path), true)] + [Apply(1)], ChangeError(1));
  }
}
