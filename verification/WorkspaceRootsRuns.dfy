/** Every run of src/hostWorkspaceRoots.ts against the hosts it talks to.

    A listing is served, and a command applied, at some moment between its sending and
    its answer; answers arrive in any order or fail; hosts may also be changed by others. */
module WorkspaceRootsRuns {
  import opened Collections
  import opened HostWorkspaceRoots

  /** What a host answered a listing; `sure` until somebody else changes that host. */
  datatype Served = Served(listed: Registrations, sure: bool)

  /** `doubt` are the hosts changed behind this client's back: by others, or by a command
      of the current connection that was applied although its answer was an error. */
  datatype World = World(
    client: Client, hosts: map<HostId, Registrations>, served: map<nat, Served>, applied: map<nat, Registrations>,
    doubt: set<HostId>)

  datatype Event =
    | SelectHost(selection: Option<Selection>)
    | RefreshView
    | MutateRoot(action: Action, valid: bool)
    | MovedRoot(possible: bool)
    | Serve(id: nat)
    | Apply(id: nat)
    | Outside(host: HostId, registrations: Registrations)
    | ListAnswer(id: nat)
    | ListError(id: nat)
    | ChangeAnswer(id: nat)
    | ChangeError(id: nat)

  function Start(restored: set<HostId>, allRestored: bool, ledgerError: bool): World {
    World(Init(restored, allRestored, ledgerError), map[], map[], map[], {})
  }

  function Reg(w: World, host: HostId): Registrations {
    if host in w.hosts then w.hosts[host] else {}
  }

  predicate IsListing(c: Client, id: nat) {
    id in c.tasks && c.tasks[id].wait.Listing?
  }

  predicate IsChange(c: Client, id: nat) {
    id in c.tasks && c.tasks[id].wait.Change?
  }

  predicate Enabled(w: World, e: Event) {
    match e
    case Serve(id) => IsListing(w.client, id) && id !in w.served
    case Apply(id) => IsChange(w.client, id) && id !in w.applied
    case ListAnswer(id) => IsListing(w.client, id) && id in w.served
    case ListError(id) => IsListing(w.client, id)
    case ChangeAnswer(id) => IsChange(w.client, id) && id in w.applied
    case ChangeError(id) => IsChange(w.client, id)
    case _ => true
  }

  function Effect(action: Action, registrations: Registrations): Registrations {
    match action
    case Add(path) => registrations + {path}
    case Remove(path) => registrations - {path}
  }

  function Step(c: Client, w: World, e: Event): Client
    requires c == w.client && Enabled(w, e)
  {
    match e
    case SelectHost(selection) => Select(c, selection)
    case RefreshView => Refresh(c)
    case MutateRoot(action, valid) => Mutate(c, action, valid)
    case MovedRoot(possible) => MoveRoot(c, possible)
    case ListAnswer(id) => Listed(c, id, w.served[id].listed)
    case ListError(id) => ListFailed(c, id)
    case ChangeAnswer(id) => Changed(c, id, w.applied[id])
    case ChangeError(id) => ChangeFailed(c, id)
    case _ => c
  }

  predicate Current(c: Client, id: nat) {
    IsChange(c, id) && c.tasks[id].wait.operation.epoch == c.epoch
  }

  function Next(w: World, e: Event): World {
    if !Enabled(w, e) then w
    else
      var c := Step(w.client, w, e);
      match e
      case Serve(id) =>
        w.(served := w.served[id := Served(Reg(w, w.client.tasks[id].wait.selection.host), true)])
      case Apply(id) =>
        var wait := w.client.tasks[id].wait;
        var after := Effect(wait.action, Reg(w, wait.selection.host));
        w.(hosts := w.hosts[wait.selection.host := after], applied := w.applied[id := after])
      case Outside(host, registrations) =>
        w.(hosts := w.hosts[host := registrations], doubt := w.doubt + {host},
           served := map id | id in w.served ::
             if IsListing(w.client, id) && w.client.tasks[id].wait.selection.host == host
             then w.served[id].(sure := false) else w.served[id])
      case ListAnswer(id) =>
        var wait := w.client.tasks[id].wait;
        var cleared := if Accepts(w.client, wait) && w.served[id].sure then w.doubt - {wait.selection.host} else w.doubt;
        w.(client := c, served := w.served - {id}, doubt := cleared)
      case ListError(id) =>
        w.(client := c, served := w.served - {id})
      case ChangeAnswer(id) =>
        w.(client := c, applied := w.applied - {id})
      case ChangeError(id) =>
        var doubted := if Current(w.client, id) && id in w.applied
                       then w.doubt + {w.client.tasks[id].wait.selection.host} else w.doubt;
        w.(client := c, applied := w.applied - {id}, doubt := doubted)
      case _ => w.(client := c)
  }

  function Run(start: World, events: seq<Event>): World {
    if events == [] then start else Next(Run(start, events[..|events| - 1]), events[|events| - 1])
  }

  // ----- the client's own invariant -----

  ghost predicate Old(c: Client, superseded: seq<Operation>) {
    forall i | 0 <= i < |superseded| :: superseded[i].epoch < c.epoch
  }

  ghost predicate TaskOk(c: Client, id: nat, task: Task) {
    && id < c.nextId
    && Old(c, task.superseded)
    && match task.wait
       case Listing(epoch, generation, sequence, selection) =>
         && epoch <= c.epoch && generation <= c.generation && sequence <= c.listSequence
         && (epoch == c.epoch ==> c.selection == Some(selection))
       case Change(operation, selection, _, _) =>
         && operation.epoch <= c.epoch && operation.id == id
         && (operation.epoch == c.epoch ==> c.operation == Some(operation) && c.selection == Some(selection))
  }

  ghost predicate TasksOk(c: Client) {
    && (forall id | id in c.tasks :: TaskOk(c, id, c.tasks[id]))
    && (c.operation.Some? ==> c.operation.value.id < c.nextId && c.operation.value.epoch <= c.epoch)
  }

  /** No two listings carry the same send number. */
  ghost predicate NumbersUnique(c: Client) {
    forall i, j | IsListing(c, i) && IsListing(c, j) && c.tasks[i].wait.sequence == c.tasks[j].wait.sequence :: i == j
  }

  predicate IsLatest(c: Client, id: nat) {
    IsListing(c, id) && c.tasks[id].wait.epoch == c.epoch && c.tasks[id].wait.sequence == c.listSequence
  }

  ghost predicate LatestInFlight(c: Client) {
    exists id :: IsLatest(c, id)
  }

  /** The lock is held exactly by one change of the current epoch that is still running,
      `mutating` reports exactly that, and an owed re-read waits for it. */
  ghost predicate LockOk(c: Client) {
    && (Busy(c) ==> Current(c, c.operation.value.id))
    && (c.relistAfterOperation ==> Busy(c))
    && (c.mutating <==> Busy(c))
  }

  /** The view says `loading` only while something is going to end that. */
  ghost predicate ViewOk(c: Client) {
    && (c.selection.None? <==> c.status == Idle)
    && (c.status == Ready ==> c.memberships.Some?)
    && (c.status == Loading ==> LatestInFlight(c) || c.relistAfterOperation)
  }

  ghost predicate ClientOk(c: Client) {
    TasksOk(c) && LockOk(c) && ViewOk(c)
  }

  // ----- what the private steps do -----

  /** Ending superseded changes moves only the generation, and lets go of a stale lock. */
  ghost predicate Ended(before: Client, after: Client, changes: nat) {
    && after.generation == before.generation + changes
    && (after.operation == before.operation || (after.operation.None? && !Busy(before)))
    && after == before.(generation := after.generation, operation := after.operation)
  }

  lemma {:induction false} FinishEnds(c: Client, superseded: seq<Operation>)
    requires Old(c, superseded)
    ensures Ended(c, Finish(c, superseded), |superseded|)
    decreases |superseded|
  {
    if superseded != [] {
      var ended := c.(generation := c.generation + 1,
                      operation := if c.operation == Some(superseded[0]) then None else c.operation);
      FinishEnds(ended, superseded[1..]);
    }
  }

  lemma EndedTasks(before: Client, after: Client, changes: nat)
    requires Ended(before, after, changes) && TasksOk(before)
    ensures TasksOk(after)
  {
    forall id | id in after.tasks
      ensures TaskOk(after, id, after.tasks[id])
    {
      assert TaskOk(before, id, before.tasks[id]);
    }
  }

  lemma EndedView(before: Client, after: Client, changes: nat)
    requires Ended(before, after, changes)
    ensures Busy(after) <==> Busy(before)
    ensures forall id :: IsLatest(before, id) <==> IsLatest(after, id)
    ensures forall id :: Current(before, id) <==> Current(after, id)
    ensures LatestInFlight(before) <==> LatestInFlight(after)
    ensures LockOk(before) ==> LockOk(after)
    ensures ViewOk(before) ==> ViewOk(after)
  {
    if LatestInFlight(before) {
      var id :| IsLatest(before, id);
      assert IsLatest(after, id);
    }
    if LatestInFlight(after) {
      var id :| IsLatest(after, id);
      assert IsLatest(before, id);
    }
  }

  lemma ResumeOk(c: Client, id: nat)
    requires TasksOk(c) && id in c.tasks
    ensures TasksOk(Resume(c, id))
  {
    var r := Resume(c, id);
    forall i | i in r.tasks
      ensures TaskOk(r, i, r.tasks[i])
    {
      assert TaskOk(c, i, c.tasks[i]);
    }
  }

  /** `after` is `before` with one more waiting call. */
  ghost predicate Sent(before: Client, after: Client, task: Task) {
    after.tasks == before.tasks[before.nextId := task] && after.nextId == before.nextId + 1
  }

  lemma SendListingOk(c: Client, superseded: seq<Operation>)
    requires TasksOk(c) && Old(c, superseded) && c.selection.Some?
    ensures var sent := SendListing(c, superseded);
            && TasksOk(sent) && IsLatest(sent, c.nextId) && LatestInFlight(sent)
            && Sent(c, sent, Task(Listing(c.epoch, c.generation, c.listSequence + 1, c.selection.value), superseded))
            && sent == c.(tasks := sent.tasks, nextId := sent.nextId, listSequence := c.listSequence + 1, status := Loading)
  {
    var sent := SendListing(c, superseded);
    forall i | i in sent.tasks
      ensures TaskOk(sent, i, sent.tasks[i])
    {
      if i != c.nextId {
        assert TaskOk(c, i, c.tasks[i]);
      }
    }
    assert IsLatest(sent, c.nextId);
  }

  lemma StartChangeOk(c: Client, selection: Selection, action: Action, purpose: Purpose, superseded: seq<Operation>)
    requires TasksOk(c) && Old(c, superseded) && c.selection == Some(selection) && !Busy(c)
    ensures var started := StartChange(c, selection, action, purpose, superseded);
            && TasksOk(started) && Current(started, c.nextId) && Busy(started)
            && Sent(c, started, Task(Change(Operation(c.epoch, c.nextId), selection, action, purpose), superseded))
            && started == c.(tasks := started.tasks, nextId := started.nextId, operation := Some(Operation(c.epoch, c.nextId)),
                             generation := c.generation + 1, mutating := true)
  {
    var started := StartChange(c, selection, action, purpose, superseded);
    forall i | i in started.tasks
      ensures TaskOk(started, i, started.tasks[i])
    {
      if i != c.nextId {
        assert TaskOk(c, i, c.tasks[i]);
      }
    }
  }

  // ----- the view against the hosts -----

  ghost predicate IsApplied(c: Client, w: World, host: HostId, id: nat) {
    IsChange(c, id) && id in w.applied && c.tasks[id].wait.selection.host == host
  }

  /** A command to the host was applied and its answer is still to come. */
  ghost predicate AppliedPending(c: Client, w: World, host: HostId) {
    exists id :: IsApplied(c, w, host, id)
  }

  ghost predicate AppliedOther(c: Client, w: World, host: HostId, me: nat) {
    exists id :: id != me && IsApplied(c, w, host, id)
  }

  /** The registrations are the host's, or something still owed will bring the news. */
  ghost predicate Matches(c: Client, w: World, host: HostId, registrations: Registrations) {
    || registrations == Reg(w, host)
    || host in w.doubt
    || c.relistAfterOperation
    || AppliedPending(c, w, host)
  }

  predicate RestoreRunning(c: Client) {
    c.operation.Some? && Current(c, c.operation.value.id) && c.tasks[c.operation.value.id].wait.purpose.Restore?
  }

  ghost predicate KeysOk(c: Client, w: World) {
    && (forall id | id in w.served :: IsListing(c, id))
    && (forall id | id in w.applied :: IsChange(c, id))
  }

  /** The running change, applied or not, knows what it would write. */
  ghost predicate Knows(c: Client, w: World, id: nat)
    requires Current(c, id)
  {
    var wait := c.tasks[id].wait;
    var host := wait.selection.host;
    if id in w.applied then
      w.applied[id] == Reg(w, host) || host in w.doubt || c.relistAfterOperation || AppliedOther(c, w, host, id)
    else wait.purpose.Restore? ==> Matches(c, w, host, wait.purpose.latest)
  }

  ghost predicate ChangeOk(c: Client, w: World) {
    forall id | Current(c, id) :: Knows(c, w, id)
  }

  /** A served listing that may still be written says what the host has now, unless a
      command was applied since. */
  ghost predicate Fresh(c: Client, w: World, id: nat)
    requires IsListing(c, id) && id in w.served
  {
    var wait := c.tasks[id].wait;
    if w.served[id].sure then
      wait.generation == c.generation && !Busy(c) ==>
        w.served[id].listed == Reg(w, wait.selection.host) || AppliedPending(c, w, wait.selection.host)
    else wait.selection.host in w.doubt
  }

  ghost predicate ListingOk(c: Client, w: World) {
    forall id | IsLatest(c, id) && id in w.served :: Fresh(c, w, id)
  }

  ghost predicate ShownOk(c: Client, w: World) {
    c.selection.Some? && c.status == Ready && c.memberships.Some? ==>
      || Matches(c, w, c.selection.value.host, c.memberships.value)
      || LatestInFlight(c)
      || RestoreRunning(c)
  }

  /** All that does not depend on what the view shows. */
  ghost predicate Settled(c: Client, w: World) {
    TasksOk(c) && NumbersUnique(c) && LockOk(c) && KeysOk(c, w) && ChangeOk(c, w)
  }

  ghost predicate Inv(c: Client, w: World) {
    Settled(c, w) && ViewOk(c) && ListingOk(c, w) && ShownOk(c, w)
  }

  lemma Evidence(c: Client, w: World, c': Client, w': World)
    requires forall host, id | IsApplied(c, w, host, id) :: IsApplied(c', w', host, id)
    ensures forall host | AppliedPending(c, w, host) :: AppliedPending(c', w', host)
    ensures forall host, me | AppliedOther(c, w, host, me) :: AppliedOther(c', w', host, me)
  {
    forall host | AppliedPending(c, w, host)
      ensures AppliedPending(c', w', host)
    {
      var id :| IsApplied(c, w, host, id);
      assert IsApplied(c', w', host, id);
    }
    forall host, me | AppliedOther(c, w, host, me)
      ensures AppliedOther(c', w', host, me)
    {
      var id :| id != me && IsApplied(c, w, host, id);
      assert IsApplied(c', w', host, id);
    }
  }

  lemma AppliedSame(c: Client, after: Client, w: World)
    requires after.tasks == c.tasks
    ensures forall host :: AppliedPending(c, w, host) <==> AppliedPending(after, w, host)
    ensures forall host, me :: AppliedOther(c, w, host, me) <==> AppliedOther(after, w, host, me)
  {
    Evidence(c, w, after, w);
    Evidence(after, w, c, w);
  }

  /** One more waiting call, whose answer does not exist yet. */
  lemma AppliedSent(c: Client, after: Client, w: World, task: Task)
    requires TasksOk(c) && KeysOk(c, w) && Sent(c, after, task)
    ensures KeysOk(after, w) && c.nextId !in w.served && c.nextId !in w.applied
    ensures forall host :: AppliedPending(c, w, host) <==> AppliedPending(after, w, host)
    ensures forall host, me :: AppliedOther(c, w, host, me) <==> AppliedOther(after, w, host, me)
  {
    assert c.nextId in c.tasks ==> TaskOk(c, c.nextId, c.tasks[c.nextId]);
    Evidence(c, w, after, w);
    Evidence(after, w, c, w);
  }

  lemma EndedInv(c: Client, after: Client, w: World, changes: nat)
    requires Inv(c, w) && Ended(c, after, changes)
    ensures Inv(after, w)
  {
    EndedTasks(c, after, changes);
    EndedView(c, after, changes);
    AppliedSame(c, after, w);
    assert RestoreRunning(c) ==> RestoreRunning(after);
  }

  lemma FinishInv(c: Client, w: World, superseded: seq<Operation>)
    requires Inv(c, w) && Old(c, superseded)
    ensures Inv(Finish(c, superseded), w)
  {
    FinishEnds(c, superseded);
    EndedInv(c, Finish(c, superseded), w, |superseded|);
  }

  /** The restore flags are not what the invariant is about. */
  ghost predicate OnlyFlags(c: Client, after: Client) {
    after == c.(restoreDue := after.restoreDue, restored := after.restored, ledgerErrorShown := after.ledgerErrorShown)
  }

  lemma FlagsSettled(c: Client, after: Client, w: World)
    requires OnlyFlags(c, after) && Settled(c, w)
    ensures Settled(after, w)
  {
    AppliedSame(c, after, w);
    assert forall id | id in c.tasks :: TaskOk(c, id, c.tasks[id]) && TaskOk(after, id, after.tasks[id]);
    assert forall id :: Current(c, id) <==> Current(after, id);
  }

  lemma FlagsInv(c: Client, after: Client, w: World)
    requires OnlyFlags(c, after) && Inv(c, w)
    ensures Inv(after, w)
  {
    FlagsSettled(c, after, w);
    AppliedSame(c, after, w);
    assert forall id :: IsLatest(c, id) <==> IsLatest(after, id);
    if LatestInFlight(c) {
      var id :| IsLatest(c, id);
      assert IsLatest(after, id);
    }
  }

  lemma SendNumbers(c: Client, superseded: seq<Operation>)
    requires TasksOk(c) && NumbersUnique(c) && Old(c, superseded) && c.selection.Some?
    ensures NumbersUnique(SendListing(c, superseded))
    ensures forall id | IsLatest(SendListing(c, superseded), id) :: id == c.nextId
    ensures forall id :: Current(SendListing(c, superseded), id) <==> Current(c, id)
  {
    var after := SendListing(c, superseded);
    forall id | IsListing(after, id) && id != c.nextId
      ensures IsListing(c, id) && after.tasks[id].wait.sequence <= c.listSequence
    {
      assert TaskOk(c, id, c.tasks[id]);
    }
    assert forall id | id in c.tasks :: TaskOk(c, id, c.tasks[id]);
  }

  lemma SendInv(c: Client, w: World, superseded: seq<Operation>)
    requires Settled(c, w) && Old(c, superseded) && c.selection.Some?
    ensures Inv(SendListing(c, superseded), w)
  {
    var after := SendListing(c, superseded);
    SendListingOk(c, superseded);
    SendNumbers(c, superseded);
    AppliedSent(c, after, w, after.tasks[c.nextId]);
    forall id | Current(after, id)
      ensures Knows(after, w, id)
    {
      assert Current(c, id) && Knows(c, w, id);
      assert TaskOk(after, id, after.tasks[id]) && id in c.tasks;
    }
  }

  lemma StartInv(c: Client, w: World, selection: Selection, action: Action, purpose: Purpose, superseded: seq<Operation>)
    requires Inv(c, w) && Old(c, superseded) && c.selection == Some(selection) && !Busy(c)
    requires purpose.Restore? ==> Matches(c, w, selection.host, purpose.latest)
    ensures Inv(StartChange(c, selection, action, purpose, superseded), w)
  {
    var after := StartChange(c, selection, action, purpose, superseded);
    StartChangeOk(c, selection, action, purpose, superseded);
    AppliedSent(c, after, w, after.tasks[c.nextId]);
    assert forall i | IsListing(after, i) :: IsListing(c, i) && after.tasks[i] == c.tasks[i];
    assert forall id | IsLatest(after, id) :: IsLatest(c, id);
    forall id
      ensures Current(after, id) ==> id == c.nextId
    {
      if id in c.tasks {
        assert TaskOk(c, id, c.tasks[id]);
      }
    }
    if LatestInFlight(c) {
      var id :| IsLatest(c, id);
      assert TaskOk(c, id, c.tasks[id]);
      assert IsLatest(after, id);
    }
  }

  function Unlocked(c: Client): Client {
    c.(generation := c.generation + 1, operation := None, mutating := false, relistAfterOperation := false)
  }

  /** The running change of the current epoch has left the waiting calls. */
  ghost predicate Leaving(c: Client, w: World, operation: Operation) {
    && TasksOk(c) && NumbersUnique(c) && KeysOk(c, w) && ViewOk(c) && ShownOk(c, w)
    && c.operation == Some(operation) && operation.epoch == c.epoch
    && operation.id !in c.tasks && c.selection.Some?
    && (forall id | IsLatest(c, id) && id in w.served && !w.served[id].sure :: c.tasks[id].wait.selection.host in w.doubt)
  }

  lemma UnlockedOk(c: Client, w: World, operation: Operation)
    requires Leaving(c, w, operation)
    ensures Settled(Unlocked(c), w)
    ensures forall id | IsLatest(Unlocked(c), id) :: c.tasks[id].wait.generation != Unlocked(c).generation
  {
    var u := Unlocked(c);
    forall id
      ensures id in u.tasks ==> TaskOk(u, id, u.tasks[id]) && !Current(u, id)
      ensures IsLatest(u, id) ==> c.tasks[id].wait.generation != u.generation
    {
      if id in c.tasks {
        assert TaskOk(c, id, c.tasks[id]);
      }
    }
    assert NumbersUnique(u);
  }

  lemma EndInv(c: Client, w: World, operation: Operation, superseded: seq<Operation>)
    requires Leaving(c, w, operation) && Old(c, superseded)
    ensures Inv(EndChange(c, operation, superseded), w)
  {
    var u := Unlocked(c);
    UnlockedOk(c, w, operation);
    if c.relistAfterOperation {
      SendInv(u, w, superseded);
    } else {
      UnlockedInv(c, w, operation);
      FinishInv(u, w, superseded);
    }
  }

  lemma UnlockedInv(c: Client, w: World, operation: Operation)
    requires Leaving(c, w, operation) && !c.relistAfterOperation
    ensures Inv(Unlocked(c), w)
  {
    var u := Unlocked(c);
    UnlockedOk(c, w, operation);
    AppliedSame(c, u, w);
    assert forall id :: IsLatest(c, id) <==> IsLatest(u, id);
    if LatestInFlight(c) {
      var id :| IsLatest(c, id);
      assert IsLatest(u, id);
    }
    assert !RestoreRunning(c);
  }

  // ----- every step keeps the invariant -----

  lemma PointAtInv(c: Client, w: World, selection: Option<Selection>)
    requires Settled(c, w)
    ensures Settled(PointAt(c, selection), w)
    ensures forall id :: !IsLatest(PointAt(c, selection), id)
  {
    var p := PointAt(c, selection);
    forall id
      ensures id in p.tasks ==> TaskOk(p, id, p.tasks[id]) && !Current(p, id) && !IsLatest(p, id)
    {
      if id in c.tasks {
        assert TaskOk(c, id, c.tasks[id]);
      }
    }
    assert NumbersUnique(p);
  }

  lemma SelectInv(c: Client, w: World, selection: Option<Selection>)
    requires Inv(c, w)
    ensures Inv(Select(c, selection), w)
  {
    var p := PointAt(c, selection);
    PointAtInv(c, w, selection);
    if selection.Some? {
      FlagsSettled(p, p.(restoreDue := true), w);
      SendInv(p.(restoreDue := true), w, []);
    }
  }

  lemma RefreshInv(c: Client, w: World)
    requires Inv(c, w)
    ensures Inv(Refresh(c), w)
  {
    if c.selection.Some? {
      FlagsSettled(c, c.(restoreDue := true), w);
      SendInv(c.(restoreDue := true), w, []);
    }
  }

  lemma ServeInv(c: Client, w: World, id: nat)
    requires Inv(c, w) && w.client == c && Enabled(w, Serve(id))
    ensures Inv(c, Next(w, Serve(id)))
  {
    Evidence(c, w, c, Next(w, Serve(id)));
  }

  lemma ApplyInv(c: Client, w: World, id: nat)
    requires Inv(c, w) && w.client == c && Enabled(w, Apply(id))
    ensures Inv(c, Next(w, Apply(id)))
  {
    var after := Next(w, Apply(id));
    var host := c.tasks[id].wait.selection.host;
    Evidence(c, w, c, after);
    assert IsApplied(c, after, host, id);
    assert forall other | other != host :: Reg(after, other) == Reg(w, other);
  }

  lemma OutsideInv(c: Client, w: World, host: HostId, registrations: Registrations)
    requires Inv(c, w) && w.client == c
    ensures Inv(c, Next(w, Outside(host, registrations)))
  {
    var after := Next(w, Outside(host, registrations));
    Evidence(c, w, c, after);
    assert forall other | other != host :: Reg(after, other) == Reg(w, other);
  }

  /** Between two steps only the answers move. */
  ghost predicate OnlyEnv(w: World, after: World, served: map<nat, Served>, applied: map<nat, Registrations>) {
    after.hosts == w.hosts && after.served == served && after.applied == applied
  }

  /** A listing leaves the waiting calls: only the promise of its answer goes with it. */
  lemma ListingLeaves(c: Client, w: World, after: World, id: nat)
    requires Inv(c, w) && IsListing(c, id)
    requires OnlyEnv(w, after, w.served - {id}, w.applied)
    requires after.doubt == w.doubt || !Busy(c)
    ensures Settled(Resume(c, id), after)
    ensures forall i | i != id :: IsLatest(Resume(c, id), i) <==> IsLatest(c, i)
    ensures forall host :: AppliedPending(c, w, host) ==> AppliedPending(Resume(c, id), after, host)
  {
    var r := Resume(c, id);
    ResumeOk(c, id);
    Evidence(c, w, r, after);
    ListingLeavesChange(c, w, after, id);
    hide TasksOk, ChangeOk, ViewOk, ListingOk, ShownOk, AppliedPending;
    assert NumbersUnique(r);
  }

  lemma ListingLeavesChange(c: Client, w: World, after: World, id: nat)
    requires Inv(c, w) && IsListing(c, id)
    requires OnlyEnv(w, after, w.served - {id}, w.applied)
    requires after.doubt == w.doubt || !Busy(c)
    ensures ChangeOk(Resume(c, id), after)
  {
    var r := Resume(c, id);
    Evidence(c, w, r, after);
    forall i | Current(r, i)
      ensures Knows(r, after, i)
    {
      assert TaskOk(c, i, c.tasks[i]) && Knows(c, w, i);
    }
  }

  /** A moot listing: nothing changes but the waiting calls. */
  lemma MootListingInv(c: Client, w: World, after: World, id: nat)
    requires Inv(c, w) && IsListing(c, id) && !IsLatest(c, id)
    requires OnlyEnv(w, after, w.served - {id}, w.applied) && after.doubt == w.doubt
    ensures Inv(Resume(c, id), after)
  {
    var r := Resume(c, id);
    ListingLeaves(c, w, after, id);
    if LatestInFlight(c) {
      var i :| IsLatest(c, i);
      assert IsLatest(r, i);
    }
    assert RestoreRunning(c) ==> RestoreRunning(r);
  }

  /** A re-read that is owed explains whatever the view or a change still misses. */
  lemma OwedSettled(c: Client, w: World)
    requires Settled(c, w) && Busy(c)
    ensures Settled(c.(relistAfterOperation := true), w)
  {
    var owed := c.(relistAfterOperation := true);
    AppliedSame(c, owed, w);
    assert forall i | i in c.tasks :: TaskOk(c, i, c.tasks[i]) && TaskOk(owed, i, owed.tasks[i]);
    assert forall i :: Current(owed, i) <==> Current(c, i);
  }

  /** A listing answered during a change: the re-read is owed to the change's end. */
  lemma DeferredListingInv(c: Client, w: World, after: World, id: nat)
    requires Inv(c, w) && IsListing(c, id) && Busy(c)
    requires OnlyEnv(w, after, w.served - {id}, w.applied) && after.doubt == w.doubt
    ensures Inv(Resume(c, id).(relistAfterOperation := true), after)
  {
    var r := Resume(c, id);
    ListingLeaves(c, w, after, id);
    OwedSettled(r, after);
    hide Settled, Matches;
    assert forall i :: IsLatest(r.(relistAfterOperation := true), i) <==> IsLatest(r, i);
  }

  lemma FailedListingInv(c: Client, w: World, after: World, id: nat)
    requires Inv(c, w) && IsLatest(c, id)
    requires OnlyEnv(w, after, w.served - {id}, w.applied) && after.doubt == w.doubt
    ensures Inv(Resume(c, id).(status := Error), after)
  {
    var r := Resume(c, id);
    var failed := r.(status := Error);
    ListingLeaves(c, w, after, id);
    ViewSettled(r, failed, after);
    assert TaskOk(c, id, c.tasks[id]);
  }

  /** An accepted listing is what the view shows from now on. */
  lemma AcceptedListingInv(c: Client, w: World, after: World, id: nat)
    requires Inv(c, w) && IsListing(c, id) && id in w.served && Accepts(c, c.tasks[id].wait)
    requires OnlyEnv(w, after, w.served - {id}, w.applied)
    requires after.doubt == if w.served[id].sure then w.doubt - {c.tasks[id].wait.selection.host} else w.doubt
    ensures var accepted := Resume(c, id).(status := Ready, memberships := Some(w.served[id].listed));
            Inv(accepted, after) && Matches(accepted, after, c.tasks[id].wait.selection.host, w.served[id].listed)
  {
    var r := Resume(c, id);
    var accepted := r.(status := Ready, memberships := Some(w.served[id].listed));
    assert TaskOk(c, id, c.tasks[id]);
    assert IsLatest(c, id) && Fresh(c, w, id);
    ListingLeaves(c, w, after, id);
    ViewSettled(r, accepted, after);
    assert forall i :: !IsLatest(accepted, i);
  }

  /** Nor is what the view shows what the waiting calls depend on. */
  lemma ViewSettled(c: Client, after: Client, w: World)
    requires after == c.(status := after.status, memberships := after.memberships) && Settled(c, w)
    ensures Settled(after, w)
    ensures forall host :: AppliedPending(c, w, host) <==> AppliedPending(after, w, host)
    ensures forall id :: IsLatest(c, id) <==> IsLatest(after, id)
  {
    AppliedSame(c, after, w);
    assert forall id | id in c.tasks :: TaskOk(c, id, c.tasks[id]) && TaskOk(after, id, after.tasks[id]);
    assert forall id | Current(after, id) :: Current(c, id) && Knows(c, w, id);
  }

  lemma RestoreInv(c: Client, w: World, selection: Selection, listed: Registrations, superseded: seq<Operation>)
    requires Inv(c, w) && Old(c, superseded) && c.selection == Some(selection) && !Busy(c)
    requires Matches(c, w, selection.host, listed)
    ensures Inv(RestorePrevious(c, selection, listed, superseded), w)
  {
    if selection.previousRoots.None? {
      FinishInv(c, w, superseded);
    } else if c.ledgerError && !c.ledgerErrorShown {
      FlagsInv(c, c.(ledgerErrorShown := true), w);
      FinishInv(c.(ledgerErrorShown := true), w, superseded);
    } else if AlreadyRestored(c, selection.host) {
      FinishInv(c, w, superseded);
    } else {
      var missing := Filter(selection.previousRoots.value, path => path !in listed);
      if missing == [] {
        FlagsInv(c, c.(restored := c.restored + {selection.host}), w);
        FinishInv(c.(restored := c.restored + {selection.host}), w, superseded);
      } else {
        StartInv(c, w, selection, Add(missing[0]), Restore(missing[1..], listed), superseded);
      }
    }
  }

  lemma ListAnswerInv(c: Client, w: World, after: World, id: nat)
    requires Inv(c, w) && IsListing(c, id) && id in w.served
    requires OnlyEnv(w, after, w.served - {id}, w.applied)
    requires after.doubt == if Accepts(c, c.tasks[id].wait) && w.served[id].sure
                            then w.doubt - {c.tasks[id].wait.selection.host} else w.doubt
    ensures Inv(Listed(c, id, w.served[id].listed), after)
  {
    var Task(Listing(_, generation, _, selection), superseded) := c.tasks[id];
    var r := Resume(c, id);
    assert TaskOk(c, id, c.tasks[id]);
    if !IsLatest(c, id) {
      MootListingInv(c, w, after, id);
      FinishInv(r, after, superseded);
    } else if Busy(c) {
      DeferredListingInv(c, w, after, id);
      FinishInv(r.(relistAfterOperation := true), after, superseded);
    } else if generation != c.generation {
      ListingLeaves(c, w, after, id);
      SendInv(r, after, superseded);
    } else {
      AcceptedListingInv(c, w, after, id);
      var accepted := r.(status := Ready, memberships := Some(w.served[id].listed));
      if c.restoreDue {
        FlagsInv(accepted, accepted.(restoreDue := false), after);
        AppliedSame(accepted, accepted.(restoreDue := false), after);
        RestoreInv(accepted.(restoreDue := false), after, selection, w.served[id].listed, superseded);
      } else {
        FinishInv(accepted, after, superseded);
      }
    }
  }

  lemma ListingOld(c: Client, w: World, id: nat)
    requires Inv(c, w) && IsListing(c, id)
    ensures Old(c, c.tasks[id].superseded)
  {
    assert TaskOk(c, id, c.tasks[id]);
  }

  lemma ListErrorInv(c: Client, w: World, after: World, id: nat)
    requires Inv(c, w) && IsListing(c, id)
    requires OnlyEnv(w, after, w.served - {id}, w.applied) && after.doubt == w.doubt
    ensures Inv(ListFailed(c, id), after)
  {
    ListingOld(c, w, id);
    hide Inv, Finish;
    if IsLatest(c, id) {
      FailedListingInv(c, w, after, id);
      FinishInv(Resume(c, id).(status := Error), after, c.tasks[id].superseded);
    } else {
      MootListingInv(c, w, after, id);
      FinishInv(Resume(c, id), after, c.tasks[id].superseded);
    }
  }

  /** A change leaves the waiting calls. */
  lemma ChangeLeaves(c: Client, w: World, after: World, id: nat)
    requires Inv(c, w) && IsChange(c, id)
    requires OnlyEnv(w, after, w.served, w.applied - {id})
    ensures TasksOk(Resume(c, id)) && NumbersUnique(Resume(c, id)) && KeysOk(Resume(c, id), after)
    ensures forall i :: IsLatest(Resume(c, id), i) <==> IsLatest(c, i)
    ensures forall i | i != id :: Current(Resume(c, id), i) <==> Current(c, i)
    ensures LatestInFlight(c) ==> LatestInFlight(Resume(c, id))
  {
    ResumeOk(c, id);
    if LatestInFlight(c) {
      var i :| IsLatest(c, i);
      assert IsLatest(Resume(c, id), i);
    }
    assert NumbersUnique(Resume(c, id));
  }

  /** Only the evidence the change carried itself goes with it. */
  lemma EvidenceLeaves(c: Client, w: World, after: World, id: nat, ended: Client)
    requires IsChange(c, id) && ended.tasks == c.tasks - {id} && OnlyEnv(w, after, w.served, w.applied - {id})
    ensures forall host | AppliedOther(c, w, host, id) :: AppliedPending(ended, after, host)
    ensures forall host | host != c.tasks[id].wait.selection.host && AppliedPending(c, w, host) ::
              AppliedPending(ended, after, host)
    ensures id !in w.applied ==> forall host | AppliedPending(c, w, host) :: AppliedPending(ended, after, host)
  {
    forall host | AppliedOther(c, w, host, id)
      ensures AppliedPending(ended, after, host)
    {
      var i :| i != id && IsApplied(c, w, host, i);
      assert IsApplied(ended, after, host, i);
    }
    forall host | AppliedPending(c, w, host) && (host != c.tasks[id].wait.selection.host || id !in w.applied)
      ensures AppliedPending(ended, after, host)
    {
      var i :| IsApplied(c, w, host, i);
      assert IsApplied(ended, after, host, i);
    }
  }

  /** The running change knows no less when one of another host is answered. */
  lemma KnowsStill(c: Client, w: World, after: World, id: nat, i: nat)
    requires Inv(c, w) && IsChange(c, id) && Current(c, i) && i != id
    requires c.selection.None? || c.selection.value.host != c.tasks[id].wait.selection.host
    requires OnlyEnv(w, after, w.served, w.applied - {id}) && after.doubt == w.doubt
    ensures Knows(Resume(c, id), after, i)
  {
    var r := Resume(c, id);
    assert TaskOk(c, i, c.tasks[i]) && Knows(c, w, i);
    var host := c.tasks[i].wait.selection.host;
    EvidenceLeaves(c, w, after, id, r);
    if AppliedOther(c, w, host, i) {
      var other :| other != i && IsApplied(c, w, host, other);
      assert other != i && IsApplied(r, after, host, other);
    }
  }

  /** A superseded change of a host that is not in view. */
  lemma ForeignChangeInv(c: Client, w: World, after: World, id: nat)
    requires Inv(c, w) && IsChange(c, id) && !Current(c, id)
    requires c.selection.None? || c.selection.value.host != c.tasks[id].wait.selection.host
    requires OnlyEnv(w, after, w.served, w.applied - {id}) && after.doubt == w.doubt
    ensures Inv(Resume(c, id), after)
  {
    var r := Resume(c, id);
    ChangeLeaves(c, w, after, id);
    EvidenceLeaves(c, w, after, id, r);
    forall i | Current(r, i)
      ensures Knows(r, after, i)
    {
      KnowsStill(c, w, after, id, i);
    }
    forall i | IsLatest(r, i) && i in after.served
      ensures Fresh(r, after, i)
    {
      assert TaskOk(c, i, c.tasks[i]) && Fresh(c, w, i);
    }
    assert RestoreRunning(c) ==> RestoreRunning(r);
  }

  /** A superseded change of the host in view, answered during a change of this epoch. */
  lemma DeferredChangeInv(c: Client, w: World, after: World, id: nat)
    requires Inv(c, w) && IsChange(c, id) && !Current(c, id) && Busy(c)
    requires OnlyEnv(w, after, w.served, w.applied - {id}) && after.doubt == w.doubt
    ensures Inv(Resume(c, id).(relistAfterOperation := true), after)
  {
    var r := Resume(c, id);
    var owed := r.(relistAfterOperation := true);
    ChangeLeaves(c, w, after, id);
    forall i | i in r.tasks
      ensures TaskOk(owed, i, owed.tasks[i])
    {
      assert TaskOk(r, i, r.tasks[i]);
    }
    forall i
      ensures Current(owed, i) ==> Knows(owed, after, i)
      ensures IsLatest(owed, i) && i in after.served ==> Fresh(owed, after, i)
    {
      if IsLatest(owed, i) && i in after.served {
        assert IsLatest(r, i) && Fresh(c, w, i);
      }
    }
  }

  lemma UnlockedChangeSettled(c: Client, w: World, after: World, id: nat)
    requires Inv(c, w) && IsChange(c, id) && !Current(c, id) && !Busy(c)
    requires OnlyEnv(w, after, w.served, w.applied - {id}) && after.doubt == w.doubt
    ensures Settled(Resume(c, id), after)
  {
    ChangeLeaves(c, w, after, id);
    forall i | i in c.tasks
      ensures !Current(c, i)
    {
      assert TaskOk(c, i, c.tasks[i]);
    }
  }

  lemma SupersededInv(c: Client, w: World, after: World, id: nat)
    requires Inv(c, w) && IsChange(c, id) && !Current(c, id)
    requires OnlyEnv(w, after, w.served, w.applied - {id}) && after.doubt == w.doubt
    ensures var Task(Change(operation, selection, _, _), superseded) := c.tasks[id];
            Inv(SettleSuperseded(Resume(c, id), selection, [operation] + superseded), after)
  {
    var Task(Change(operation, selection, _, _), superseded) := c.tasks[id];
    var r := Resume(c, id);
    assert TaskOk(c, id, c.tasks[id]);
    assert Old(r, [operation] + superseded);
    if c.selection.None? || c.selection.value.host != selection.host {
      ForeignChangeInv(c, w, after, id);
      FinishInv(r, after, [operation] + superseded);
    } else if Busy(c) {
      DeferredChangeInv(c, w, after, id);
      FinishInv(r.(relistAfterOperation := true), after, [operation] + superseded);
    } else {
      UnlockedChangeSettled(c, w, after, id);
      SendInv(r, after, [operation] + superseded);
    }
  }

  /** The running change ends, writing into the view or leaving it alone. */
  ghost predicate Writes(c: Client, w: World, after: World, id: nat, ended: Client) {
    && Inv(c, w) && Current(c, id)
    && OnlyEnv(w, after, w.served, w.applied - {id}) && w.doubt <= after.doubt
    && ended == Resume(c, id).(memberships := ended.memberships, status := ended.status, restored := ended.restored)
    && (ended.status == Ready || ended.status == c.status)
    && (ended.status == Ready ==>
          && ended.memberships.Some?
          && (Matches(ended, after, c.tasks[id].wait.selection.host, ended.memberships.value) || LatestInFlight(c)))
  }

  lemma WritesLeaving(c: Client, w: World, after: World, id: nat, ended: Client)
    requires Writes(c, w, after, id, ended)
    ensures Leaving(ended, after, c.tasks[id].wait.operation)
  {
    var r := Resume(c, id);
    ChangeLeaves(c, w, after, id);
    assert TaskOk(c, id, c.tasks[id]);
    forall i | i in r.tasks
      ensures TaskOk(ended, i, ended.tasks[i])
    {
      assert TaskOk(r, i, r.tasks[i]);
    }
    if LatestInFlight(r) {
      var i :| IsLatest(r, i);
      assert IsLatest(ended, i);
    }
    forall i | IsLatest(ended, i) && i in after.served && !after.served[i].sure
      ensures ended.tasks[i].wait.selection.host in after.doubt
    {
      assert IsLatest(r, i) && Fresh(c, w, i);
    }
    assert NumbersUnique(ended);
  }

  lemma CurrentEnds(c: Client, w: World, after: World, id: nat, ended: Client)
    requires Writes(c, w, after, id, ended)
    ensures Inv(EndChange(ended, c.tasks[id].wait.operation, c.tasks[id].superseded), after)
  {
    assert TaskOk(c, id, c.tasks[id]);
    WritesLeaving(c, w, after, id, ended);
    EndInv(ended, after, c.tasks[id].wait.operation, c.tasks[id].superseded);
  }

  lemma RestoreSettled(c: Client, w: World, after: World, id: nat)
    requires Inv(c, w) && Current(c, id) && id in w.applied
    requires OnlyEnv(w, after, w.served, w.applied - {id}) && after.doubt == w.doubt
    requires c.tasks[id].wait.purpose.Restore? && c.tasks[id].wait.purpose.remaining != []
    ensures Settled(Changed(c, id, w.applied[id]), after)
    ensures forall i :: IsLatest(Changed(c, id, w.applied[id]), i) <==> IsLatest(c, i)
  {
    var next := Changed(c, id, w.applied[id]);
    assert TaskOk(c, id, c.tasks[id]) && Knows(c, w, id);
    forall i | i in next.tasks
      ensures TaskOk(next, i, next.tasks[i])
      ensures Current(next, i) ==> i == id
    {
      assert TaskOk(c, i, c.tasks[i]);
    }
    var host := c.tasks[id].wait.selection.host;
    if AppliedOther(c, w, host, id) {
      var i :| i != id && IsApplied(c, w, host, i);
      assert IsApplied(next, after, host, i);
    }
    assert Knows(next, after, id);
    assert NumbersUnique(next);
  }

  /** A restore goes on to its next root: the same call waits again. */
  lemma RestoreGoesOn(c: Client, w: World, after: World, id: nat)
    requires Inv(c, w) && Current(c, id) && id in w.applied
    requires OnlyEnv(w, after, w.served, w.applied - {id}) && after.doubt == w.doubt
    requires c.tasks[id].wait.purpose.Restore? && c.tasks[id].wait.purpose.remaining != []
    ensures Inv(Changed(c, id, w.applied[id]), after)
  {
    var next := Changed(c, id, w.applied[id]);
    RestoreSettled(c, w, after, id);
    if LatestInFlight(c) {
      var i :| IsLatest(c, i);
      assert IsLatest(next, i);
    }
    forall i | IsLatest(next, i) && i in after.served
      ensures Fresh(next, after, i)
    {
      assert IsLatest(c, i) && Fresh(c, w, i);
    }
  }

  lemma ChangeAnswerInv(c: Client, w: World, after: World, id: nat)
    requires Inv(c, w) && IsChange(c, id) && id in w.applied
    requires OnlyEnv(w, after, w.served, w.applied - {id}) && after.doubt == w.doubt
    ensures Inv(Changed(c, id, w.applied[id]), after)
  {
    var wait := c.tasks[id].wait;
    if !Current(c, id) {
      SupersededInv(c, w, after, id);
    } else if wait.purpose.Restore? && wait.purpose.remaining != [] {
      RestoreGoesOn(c, w, after, id);
    } else {
      var r := Resume(c, id);
      var ended := if wait.purpose.Mutation? then r.(memberships := Some(w.applied[id]), status := Ready)
                   else r.(memberships := Some(w.applied[id]), restored := c.restored + {wait.selection.host});
      EvidenceLeaves(c, w, after, id, ended);
      CurrentEnds(c, w, after, id, ended);
    }
  }

  lemma ChangeErrorInv(c: Client, w: World, after: World, id: nat)
    requires Inv(c, w) && IsChange(c, id)
    requires OnlyEnv(w, after, w.served, w.applied - {id})
    requires after.doubt == if Current(c, id) && id in w.applied
                            then w.doubt + {c.tasks[id].wait.selection.host} else w.doubt
    ensures Inv(ChangeFailed(c, id), after)
  {
    var wait := c.tasks[id].wait;
    if !Current(c, id) {
      SupersededInv(c, w, after, id);
    } else {
      var r := Resume(c, id);
      var ended := if wait.purpose.Restore? then r.(memberships := Some(wait.purpose.latest)) else r;
      assert TaskOk(c, id, c.tasks[id]);
      EvidenceLeaves(c, w, after, id, ended);
      CurrentEnds(c, w, after, id, ended);
    }
  }

  /** The steps no answer starts. */
  lemma CallInv(c: Client, w: World, e: Event)
    requires Inv(c, w) && c == w.client
    requires e.SelectHost? || e.RefreshView? || e.MutateRoot? || e.MovedRoot?
    ensures Inv(Step(c, w, e), w)
  {
    match e
    case SelectHost(selection) => SelectInv(c, w, selection);
    case RefreshView => RefreshInv(c, w);
    case MutateRoot(action, valid) =>
      if c.selection.Some? && !Busy(c) && valid {
        StartInv(c, w, c.selection.value, action, Mutation, []);
      }
    case MovedRoot(possible) =>
      if MoveRoot(c, possible) != c {
        EndedInv(c, MoveRoot(c, possible), w, 2);
      }
  }

  lemma AnswerInv(w: World, e: Event)
    requires Inv(w.client, w) && Enabled(w, e)
    requires e.ListAnswer? || e.ListError? || e.ChangeAnswer? || e.ChangeError?
    ensures Inv(Next(w, e).client, Next(w, e))
  {
    var c, after := w.client, Next(w, e);
    match e
    case ListAnswer(id) => ListAnswerInv(c, w, after, id);
    case ListError(id) => ListErrorInv(c, w, after, id);
    case ChangeAnswer(id) => ChangeAnswerInv(c, w, after, id);
    case ChangeError(id) => ChangeErrorInv(c, w, after, id);
  }

  lemma CalledInv(w: World, e: Event)
    requires Inv(w.client, w)
    requires e.SelectHost? || e.RefreshView? || e.MutateRoot? || e.MovedRoot?
    ensures Inv(Next(w, e).client, Next(w, e))
  {
    CallInv(w.client, w, e);
    ClientInv(Step(w.client, w, e), w);
  }

  lemma ClientInv(c: Client, w: World)
    requires Inv(c, w)
    ensures Inv(c, w.(client := c))
  {
    Evidence(c, w, c, w.(client := c));
  }

  lemma NextInv(w: World, e: Event)
    requires Inv(w.client, w)
    ensures Inv(Next(w, e).client, Next(w, e))
  {
    if Enabled(w, e) {
      match e
      case Serve(id) => ServeInv(w.client, w, id);
      case Apply(id) => ApplyInv(w.client, w, id);
      case Outside(host, registrations) => OutsideInv(w.client, w, host, registrations);
      case ListAnswer(_) => AnswerInv(w, e);
      case ListError(_) => AnswerInv(w, e);
      case ChangeAnswer(_) => AnswerInv(w, e);
      case ChangeError(_) => AnswerInv(w, e);
      case _ => CalledInv(w, e);
    }
  }

  predicate IsStart(w: World) {
    w == Start(w.client.restored, w.client.allRestored, w.client.ledgerError)
  }

  lemma {:induction false} RunInv(start: World, events: seq<Event>)
    requires IsStart(start)
    ensures Inv(Run(start, events).client, Run(start, events))
  {
    if events != [] {
      RunInv(start, events[..|events| - 1]);
      NextInv(Run(start, events[..|events| - 1]), events[|events| - 1]);
    }
  }
}
