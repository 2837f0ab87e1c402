/** src/hostWorkspaceRoots.ts: a view never shows the roots of another host. */
module WorkspaceRootsHeld {
  import opened Collections
  import opened HostWorkspaceRoots
  import opened WorkspaceRootsRuns

  /** Which host had which roots. */
  type History = iset<(HostId, Registrations)>

  /** What the view shows, and what it may be made to show, is what its host had once. */
  ghost predicate ViewHeld(c: Client, h: History) {
    c.memberships.Some? ==> c.selection.Some? && (c.selection.value.host, c.memberships.value) in h
  }

  ghost predicate CallsHeld(c: Client, h: History) {
    forall id | IsChange(c, id) && c.tasks[id].wait.purpose.Restore? ::
      (c.tasks[id].wait.selection.host, c.tasks[id].wait.purpose.latest) in h
  }

  ghost predicate AnswersHeld(c: Client, w: World, h: History) {
    && (forall id | id in w.served ::
          id < c.nextId && (id in c.tasks ==> (c.tasks[id].wait.selection.host, w.served[id].listed) in h))
    && (forall id | id in w.applied ::
          id < c.nextId && (id in c.tasks ==> (c.tasks[id].wait.selection.host, w.applied[id]) in h))
  }

  ghost predicate Known(c: Client, w: World, h: History) {
    ViewHeld(c, h) && CallsHeld(c, h) && AnswersHeld(c, w, h)
  }

  /** Any step may note what it likes, and show what the host of the view had. */
  ghost predicate Notes(c: Client, after: Client, h: History) {
    && after.tasks == c.tasks && after.nextId == c.nextId
    && (after.memberships.Some? ==>
          after.selection.Some? && (after.selection.value.host, after.memberships.value) in h)
  }

  lemma ResumeKnown(c: Client, id: nat, w: World, h: History)
    requires Known(c, w, h)
    ensures Known(Resume(c, id), w, h)
  {
  }

  lemma NotesKnown(c: Client, after: Client, w: World, h: History)
    requires Known(c, w, h) && Notes(c, after, h)
    ensures Known(after, w, h)
  {
  }

  lemma Showing(c: Client, w: World, h: History)
    requires Known(c, w, h)
    ensures Notes(c, c, h)
  {
  }

  lemma FinishKnown(c: Client, superseded: seq<Operation>, w: World, h: History)
    requires Known(c, w, h) && Old(c, superseded)
    ensures Known(Finish(c, superseded), w, h)
  {
    FinishEnds(c, superseded);
  }

  lemma SendKnown(c: Client, superseded: seq<Operation>, w: World, h: History)
    requires Known(c, w, h) && Old(c, superseded)
    ensures Known(SendListing(c, superseded), w, h)
  {
    FinishKnown(c, superseded, w, h);
  }

  lemma EndKnown(c: Client, operation: Operation, superseded: seq<Operation>, w: World, h: History)
    requires Known(c, w, h) && Old(c, superseded) && operation.epoch == c.epoch
    ensures Known(EndChange(c, operation, superseded), w, h)
  {
    var ended := c.(generation := c.generation + 1, operation := if c.operation == Some(operation) then None else c.operation,
                    mutating := false);
    hide Finish, SendListing;
    FinishKnown(ended, superseded, w, h);
    SendKnown(ended.(relistAfterOperation := false), superseded, w, h);
  }

  lemma SettleKnown(c: Client, selection: Selection, superseded: seq<Operation>, w: World, h: History)
    requires Known(c, w, h) && Old(c, superseded)
    ensures Known(SettleSuperseded(c, selection, superseded), w, h)
  {
    hide Finish, SendListing;
    FinishKnown(c, superseded, w, h);
    FinishKnown(c.(relistAfterOperation := true), superseded, w, h);
    SendKnown(c, superseded, w, h);
  }

  lemma StartKnown(c: Client, selection: Selection, action: Action, purpose: Purpose, superseded: seq<Operation>, w: World, h: History)
    requires Known(c, w, h) && (purpose.Restore? ==> (selection.host, purpose.latest) in h)
    ensures Known(StartChange(c, selection, action, purpose, superseded), w, h)
  {
  }

  lemma RestoreKnown(c: Client, selection: Selection, listed: Registrations, superseded: seq<Operation>, w: World, h: History)
    requires Known(c, w, h) && Old(c, superseded) && (selection.host, listed) in h
    ensures Known(RestorePrevious(c, selection, listed, superseded), w, h)
  {
    hide Finish, StartChange;
    FinishKnown(c, superseded, w, h);
    FinishKnown(c.(ledgerErrorShown := true), superseded, w, h);
    FinishKnown(c.(restored := c.restored + {selection.host}), superseded, w, h);
    if selection.previousRoots.Some? {
      var missing := Filter(selection.previousRoots.value, path => path !in listed);
      if missing != [] {
        StartKnown(c, selection, Add(missing[0]), Restore(missing[1..], listed), superseded, w, h);
      }
    }
  }

  // ----- the steps -----

  lemma CallKnown(c: Client, w: World, e: Event, h: History)
    requires Inv(c, w) && Known(c, w, h) && c == w.client
    requires e.SelectHost? || e.RefreshView? || e.MutateRoot? || e.MovedRoot?
    ensures Known(Step(c, w, e), w, h)
  {
    hide SendListing, Inv, StartChange;
    Showing(c, w, h);
    hide Known;
    match e
    case SelectHost(selection) =>
      var pointed := PointAt(c, selection);
      NotesKnown(c, pointed, w, h);
      NotesKnown(c, pointed.(restoreDue := true), w, h);
      SendKnown(pointed.(restoreDue := true), [], w, h);
    case RefreshView =>
      NotesKnown(c, c.(restoreDue := true), w, h);
      SendKnown(c.(restoreDue := true), [], w, h);
    case MutateRoot(action, _) =>
      if c.selection.Some? {
        StartKnown(c, c.selection.value, action, Mutation, [], w, h);
      }
    case MovedRoot(possible) => NotesKnown(c, MoveRoot(c, possible), w, h);
  }

  lemma ListedKnown(c: Client, w: World, id: nat, h: History)
    requires Inv(c, w) && Known(c, w, h) && IsListing(c, id) && id in w.served
    ensures Known(Listed(c, id, w.served[id].listed), w, h)
  {
    var Task(Listing(_, _, _, selection), superseded) := c.tasks[id];
    var r, listed := Resume(c, id), w.served[id].listed;
    assert TaskOk(c, id, c.tasks[id]);
    ResumeKnown(c, id, w, h);
    Showing(r, w, h);
    assert (selection.host, listed) in h;
    hide Inv, Finish, SendListing, RestorePrevious, Known;
    FinishKnown(r, superseded, w, h);
    NotesKnown(r, r.(relistAfterOperation := true), w, h);
    FinishKnown(r.(relistAfterOperation := true), superseded, w, h);
    SendKnown(r, superseded, w, h);
    if Accepts(c, c.tasks[id].wait) {
      var accepted := r.(status := Ready, memberships := Some(listed));
      NotesKnown(r, accepted, w, h);
      NotesKnown(r, accepted.(restoreDue := false), w, h);
      FinishKnown(accepted, superseded, w, h);
      RestoreKnown(accepted.(restoreDue := false), selection, listed, superseded, w, h);
    }
  }

  lemma ListFailedKnown(c: Client, w: World, id: nat, h: History)
    requires Inv(c, w) && Known(c, w, h) && IsListing(c, id)
    ensures Known(ListFailed(c, id), w, h)
  {
    var r, superseded := Resume(c, id), c.tasks[id].superseded;
    assert TaskOk(c, id, c.tasks[id]);
    ResumeKnown(c, id, w, h);
    hide Inv, Finish;
    FinishKnown(r, superseded, w, h);
    FinishKnown(r.(status := Error), superseded, w, h);
  }

  lemma NextRootKnown(c: Client, w: World, id: nat, h: History)
    requires Known(c, w, h) && Current(c, id) && id in w.applied
    requires c.tasks[id].wait.purpose.Restore? && c.tasks[id].wait.purpose.remaining != []
    ensures Known(Changed(c, id, w.applied[id]), w, h)
  {
    hide EndChange;
  }

  lemma ChangedKnown(c: Client, w: World, id: nat, h: History)
    requires Inv(c, w) && Known(c, w, h) && IsChange(c, id) && id in w.applied
    ensures Known(Changed(c, id, w.applied[id]), w, h)
  {
    var Task(Change(operation, selection, _, purpose), superseded) := c.tasks[id];
    var r, answer := Resume(c, id), w.applied[id];
    assert TaskOk(c, id, c.tasks[id]);
    ResumeKnown(c, id, w, h);
    assert (selection.host, answer) in h;
    if operation.epoch == c.epoch && purpose.Restore? && purpose.remaining != [] {
      NextRootKnown(c, w, id, h);
      return;
    }
    hide Inv, EndChange, SettleSuperseded, Known;
    if operation.epoch != c.epoch {
      SettleKnown(r, selection, [operation] + superseded, w, h);
    } else if purpose.Mutation? {
      NotesKnown(r, r.(memberships := Some(answer), status := Ready), w, h);
      EndKnown(r.(memberships := Some(answer), status := Ready), operation, superseded, w, h);
    } else {
      var shown := r.(memberships := Some(answer), restored := c.restored + {selection.host});
      NotesKnown(r, shown, w, h);
      EndKnown(shown, operation, superseded, w, h);
    }
  }

  lemma ChangeFailedKnown(c: Client, w: World, id: nat, h: History)
    requires Inv(c, w) && Known(c, w, h) && IsChange(c, id)
    ensures Known(ChangeFailed(c, id), w, h)
  {
    var Task(Change(operation, selection, _, purpose), superseded) := c.tasks[id];
    var r := Resume(c, id);
    assert TaskOk(c, id, c.tasks[id]);
    ResumeKnown(c, id, w, h);
    hide Inv, EndChange, SettleSuperseded;
    if operation.epoch != c.epoch {
      SettleKnown(r, selection, [operation] + superseded, w, h);
    } else {
      EndKnown(if purpose.Restore? then r.(memberships := Some(purpose.latest)) else r, operation, superseded, w, h);
    }
  }

  /** The world may forget an answer, and what the hosts had is only ever added to. */
  lemma Widen(c: Client, w: World, w': World, h: History, h': History)
    requires Known(c, w, h) && h <= h'
    requires forall id | id in w'.served :: id in w.served && w'.served[id].listed == w.served[id].listed
    requires forall id | id in w'.applied :: id in w.applied && w'.applied[id] == w.applied[id]
    ensures Known(c, w', h')
  {
  }

  /** What every host has now. */
  ghost predicate Records(w: World, h: History) {
    forall host :: (host, Reg(w, host)) in h
  }

  lemma HostKnown(w: World, e: Event, h: History, h': History)
    requires Inv(w.client, w) && Known(w.client, w, h) && h <= h' && Enabled(w, e)
    requires e.Serve? || e.Apply? || e.Outside?
    requires Records(w, h') && Records(Next(w, e), h')
    ensures Known(w.client, Next(w, e), h')
  {
    var c := w.client;
    if e.Serve? || e.Apply? {
      assert TaskOk(c, e.id, c.tasks[e.id]);
      assert e.Apply? ==> Next(w, e).applied[e.id] == Reg(Next(w, e), c.tasks[e.id].wait.selection.host);
    }
    hide Inv;
  }

  lemma NextKnown(w: World, e: Event, h: History, h': History)
    requires Inv(w.client, w) && Known(w.client, w, h) && h <= h'
    requires Records(w, h') && Records(Next(w, e), h')
    ensures Known(Next(w, e).client, Next(w, e), h')
  {
    var c, after := w.client, Next(w, e);
    hide Inv, Listed, ListFailed, Changed, ChangeFailed, Select, Refresh, Mutate, MoveRoot;
    if !Enabled(w, e) {
      Widen(c, w, w, h, h');
    } else if e.Serve? || e.Apply? || e.Outside? {
      HostKnown(w, e, h, h');
    } else {
      match e {
        case ListAnswer(id) => ListedKnown(c, w, id, h);
        case ListError(id) => ListFailedKnown(c, w, id, h);
        case ChangeAnswer(id) => ChangedKnown(c, w, id, h);
        case ChangeError(id) => ChangeFailedKnown(c, w, id, h);
        case _ => CallKnown(c, w, e, h);
      }
      hide Known;
      Widen(after.client, w, after, h, h');
    }
  }

  // ----- every run -----

  /** The host had exactly these roots at some moment of the run. */
  ghost predicate Held(start: World, events: seq<Event>, host: HostId, registrations: Registrations) {
    exists k: nat :: Had(start, events, k, host, registrations)
  }

  ghost predicate Had(start: World, events: seq<Event>, k: nat, host: HostId, registrations: Registrations) {
    k <= |events| && Reg(Run(start, events[..k]), host) == registrations
  }

  ghost function HistoryOf(start: World, events: seq<Event>): History {
    iset pair: (HostId, Registrations) | Held(start, events, pair.0, pair.1)
  }

  lemma HistoryGrows(start: World, events: seq<Event>)
    requires events != []
    ensures HistoryOf(start, events[..|events| - 1]) <= HistoryOf(start, events)
    ensures Records(Run(start, events[..|events| - 1]), HistoryOf(start, events)) && Records(Run(start, events), HistoryOf(start, events))
  {
    var before, n := events[..|events| - 1], |events|;
    hide Run, Reg;
    assert events[..n] == events;
    forall host, registrations | Held(start, before, host, registrations)
      ensures Held(start, events, host, registrations)
    {
      var k: nat :| Had(start, before, k, host, registrations);
      assert before[..k] == events[..k];
      assert Had(start, events, k, host, registrations);
    }
    forall host
      ensures Held(start, events, host, Reg(Run(start, before), host)) && Held(start, events, host, Reg(Run(start, events), host))
    {
      assert Had(start, events, n - 1, host, Reg(Run(start, before), host));
      assert Had(start, events, n, host, Reg(Run(start, events), host));
    }
  }

  lemma {:induction false} RunKnown(start: World, events: seq<Event>)
    requires IsStart(start)
    ensures Known(Run(start, events).client, Run(start, events), HistoryOf(start, events))
  {
    if events != [] {
      hide Inv, Known, Next, Records, HistoryOf;
      var before := events[..|events| - 1];
      RunKnown(start, before);
      RunInv(start, before);
      HistoryGrows(start, events);
      NextKnown(Run(start, before), events[|events| - 1], HistoryOf(start, before), HistoryOf(start, events));
    }
  }

  /** In every run the view shows nothing without a host, and otherwise what the selected host
      itself had at some moment of the run. */
  lemma ViewIsOfItsHost(start: World, events: seq<Event>)
    requires IsStart(start) && Run(start, events).client.memberships.Some?
    ensures var c := Run(start, events).client;
            c.selection.Some? && Held(start, events, c.selection.value.host, c.memberships.value)
  {
    RunKnown(start, events);
    hide Run, Held;
  }

  lemma FlushShows(c: Client, superseded: seq<Operation>)
    requires Old(c, superseded) && c.selection.Some? && !Busy(c) && !c.mutating
    ensures var after := FlushRelist(c, superseded);
            && after.memberships == c.memberships && after.selection == c.selection && !Busy(after) && !after.mutating
            && !after.relistAfterOperation
            && if c.relistAfterOperation then after.status == Loading && IsLatest(after, c.nextId) && after.tasks.Keys == c.tasks.Keys + {c.nextId}
               else after.status == c.status && after.tasks == c.tasks
  {
    FinishEnds(c, superseded);
    hide Finish;
  }

  /** In every run an acknowledged change of the current epoch ends it: the view is what the host
      answered, and it is ready unless a re-read was owed, which is then sent. */
  lemma AcknowledgedShows(start: World, events: seq<Event>, id: nat)
    requires IsStart(start) && Enabled(Run(start, events), ChangeAnswer(id)) && Current(Run(start, events).client, id)
    requires Run(start, events).client.tasks[id].wait.purpose.Mutation?
    ensures var w := Run(start, events);
            var c, after := w.client, Next(w, ChangeAnswer(id)).client;
            && after.memberships == Some(w.applied[id]) && after.selection == c.selection
            && !Busy(after) && !after.mutating && !after.relistAfterOperation && id !in after.tasks
            && if c.relistAfterOperation then after.status == Loading && IsLatest(after, c.nextId) else after.status == Ready
  {
    var w := Run(start, events);
    var c := w.client;
    var Task(Change(operation, _, _, _), superseded) := c.tasks[id];
    RunInv(start, events);
    assert TaskOk(c, id, c.tasks[id]) && LockOk(c);
    hide Run, Inv, TasksOk, Finish;
    var shown := Resume(c, id).(memberships := Some(w.applied[id]), status := Ready);
    var free := shown.(generation := c.generation + 1, operation := None, mutating := false);
    FlushShows(free, superseded);
    assert Changed(c, id, w.applied[id]) == FlushRelist(free, superseded);
    hide FlushRelist, Changed;
  }
}
