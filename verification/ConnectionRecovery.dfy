/** src/connectionController.ts: when a recovery or a release starts, and what a ladder makes of
    what it is answered. */
module ConnectionRecovery {
  import opened Collections
  import opened ConnectionTransport
  import opened ConnectionTransportRuns
  import opened ConnectionTransportSafety

  /** A phase in which a live connection can be used. */
  predicate IsUsable(c: Controller) {
    c.connection.Some? && (c.phase == Connected || c.phase == Listing || c.phase == Attaching || c.phase == Live)
  }

  /** The app comes back to a connection that was granted time and did not outlive it. */
  predicate Spent(c: Controller, e: Event) {
    || (e.GoForeground? && !c.disposed && c.grace && c.host.Some? && (c.connection.None? || e.late))
    || (e.GraceAnswered? && Enabled(c, e) && !e.survived)
  }

  predicate WithReconnect(c: Controller, e: Event)
    requires Spent(c, e)
  {
    if e.GoForeground? then e.reconnect else c.tasks[e.id].role.reconnect
  }

  /** Whether this step asks for a recovery. */
  predicate AsksRecovery(c: Controller, e: Event) {
    || (!c.disposed && c.phase != Background && (e.Trigger? || (e.NativeLost? && c.connection == Some(e.connection)) || (e.RetryNow? && !IsUsable(c))))
    || (Spent(c, e) && WithReconnect(c, e))
  }

  predicate Starts(c: Controller, d: Controller) {
    c.nextId in d.tasks && d.tasks[c.nextId].role.Ladder?
  }

  predicate StartsRight(c: Controller, d: Controller) {
    Starts(c, d) ==>
      && c.host.Some? && d.tasks[c.nextId] == Task(Ladder(c.host.value, 0), c.intent + 1, c.connection, Ptys)
      && d.intent == c.intent + 1 && d.connection.None? && d.phase == Reconnecting && d.ladder == Some(c.nextId)
  }

  /** The connection is given up until the user asks for it. */
  predicate Releases(c: Controller, d: Controller) {
    c.nextId in d.tasks && d.tasks[c.nextId].role.Release?
  }

  /** In every run a ladder starts exactly in a step that asks for a recovery while none runs
      and a host is known; it is for that host, takes out what is installed, and is current. A
      release starts exactly when a spent connection is not to be recovered. */
  lemma RecoveryStartsExactly(budget: nat, events: seq<Event>, e: Event)
    ensures var c := Run(budget, events);
            && (Starts(c, Next(c, e)) <==> AsksRecovery(c, e) && c.ladder.None? && c.host.Some?)
            && (Releases(c, Next(c, e)) <==> Spent(c, e) && !WithReconnect(c, e))
    ensures StartsRight(Run(budget, events), Next(Run(budget, events), e))
  {
    RunInv(budget, events);
    var c := Run(budget, events);
    assert c.nextId in c.tasks ==> Good(c, c.nextId, c.tasks[c.nextId]);
    if e.GraceAnswered? && Enabled(c, e) {
      assert Good(c, e.id, c.tasks[e.id]);
    }
    hide Run, Inv, Good;
    if Continues(e).Some? && !e.GraceAnswered? {
      if Inner(e) {
        InnerStartNone(c, e);
      } else {
        OthersStartNone(c, e);
      }
    } else if e.GraceAnswered? {
      GraceStarts(c, e);
    } else if e.GoForeground? {
      ForegroundStarts(c, e);
    } else {
      CallersStart(c, e);
    }
  }

  lemma CallersStart(c: Controller, e: Event)
    requires c.nextId !in c.tasks && Continues(e).None? && !e.GoForeground?
    ensures Starts(c, Next(c, e)) <==> AsksRecovery(c, e) && c.ladder.None? && c.host.Some?
    ensures Releases(c, Next(c, e)) <==> Spent(c, e) && !WithReconnect(c, e)
    ensures StartsRight(c, Next(c, e))
  {
  }

  lemma ForegroundStarts(c: Controller, e: Event)
    requires c.nextId !in c.tasks && e.GoForeground?
    ensures Starts(c, Next(c, e)) <==> AsksRecovery(c, e) && c.ladder.None? && c.host.Some?
    ensures Releases(c, Next(c, e)) <==> Spent(c, e) && !WithReconnect(c, e)
    ensures StartsRight(c, Next(c, e))
  {
  }

  lemma GraceStarts(c: Controller, e: Event)
    requires c.nextId !in c.tasks && e.GraceAnswered?
    requires Enabled(c, e) ==> c.ladder != Some(e.id)
    ensures Starts(c, Next(c, e)) <==> AsksRecovery(c, e) && c.ladder.None? && c.host.Some?
    ensures Releases(c, Next(c, e)) <==> Spent(c, e) && !WithReconnect(c, e)
    ensures StartsRight(c, Next(c, e))
  {
  }

  lemma InnerTasks(x: Controller, id: nat, task: Task, after: After)
    ensures forall k | k in AfterClose(x, id, task, after).tasks :: k == id || k in x.tasks
  {
  }

  lemma ThrowTasks(x: Controller, id: nat, task: Task, retryable: bool, trust: bool)
    ensures forall k | k in DialThrows(x, id, task, retryable, trust).tasks :: k == id || k in x.tasks
    ensures forall k | k in DialFailed(x, id, task, trust).tasks :: k == id || k in x.tasks
  {
  }

  lemma AttemptTasks(x: Controller, id: nat, task: Task, attempt: nat)
    ensures forall k | k in Attempt(x, id, task, attempt).tasks :: k == id || k in x.tasks
  {
  }

  /** The answers that end in a close, or in a dial that failed. */
  predicate Inner(e: Event) {
    e.PtysClosed? || e.TerminalsClosed? || e.FailedPtysClosed? || e.CloseAnswered? || e.DialError? || e.TrustRead?
  }

  lemma InnerStartNone(c: Controller, e: Event)
    requires c.nextId !in c.tasks && Inner(e)
    ensures c.nextId !in Next(c, e).tasks
  {
    if Enabled(c, e) {
      hide AfterClose, DialThrows, DialFailed, Attempt, Install;
      match e
      case PtysClosed(id) => InnerTasks(c, id, c.tasks[id].(held := None), OldClosed);
      case TerminalsClosed(id) => InnerTasks(c.(connection := None), id, c.tasks[id].(held := None), OldClosed);
      case FailedPtysClosed(id) => InnerTasks(c.(connection := None), id, c.tasks[id].(held := None), RetryClosed);
      case CloseAnswered(id) => InnerTasks(c, id, c.tasks[id], c.tasks[id].at.after);
      case DialError(id, retryable, trust) => ThrowTasks(c, id, c.tasks[id], retryable, trust);
      case TrustRead(id) => ThrowTasks(c, id, c.tasks[id], true, false);
    }
  }

  lemma OthersStartNone(c: Controller, e: Event)
    requires c.nextId !in c.tasks && Continues(e).Some? && !e.GraceAnswered? && !Inner(e)
    ensures c.nextId !in Next(c, e).tasks
  {
    hide AfterClose, DialThrows, DialFailed, Attempt;
    if e.SessionsListed? && Enabled(c, e) {
      var task := c.tasks[e.id];
      AttemptTasks(c, e.id, task, task.role.attempt + 1);
      AttemptTasks(c.(phase := e.still), e.id, task, task.role.attempt + 1);
    }
  }

  lemma FailedDial(c: Controller, id: nat, retryable: bool, trust: bool)
    requires id in c.tasks && Current(c, c.tasks[id].intent) && (c.tasks[id].role.Ladder? <==> c.ladder == Some(id))
    ensures FailsRight(c, id, retryable, trust, DialThrows(c, id, c.tasks[id], retryable, trust))
  {
  }

  lemma DialErrorIs(c: Controller, id: nat, retryable: bool, trust: bool)
    requires IsAt(c, id, TrustStore) || IsAt(c, id, Native)
    ensures Next(c, DialError(id, retryable, trust)) == DialThrows(c, id, c.tasks[id], retryable, trust)
  {
    hide DialThrows, DialFailed, AfterClose, Attempt, OnSessions, OnReturned;
  }

  predicate FailsRight(c: Controller, id: nat, retryable: bool, trust: bool, d: Controller)
    requires id in c.tasks
  {
    var role := c.tasks[id].role;
    if trust then id !in d.tasks && d.phase == AwaitingTrust
    else if !role.Ladder? then id !in d.tasks && d.phase == Failed
    else if !retryable || c.budget <= role.attempt + 1 then id !in d.tasks && d.phase == Lost && d.ladder.None?
    else && id in d.tasks && d.tasks[id] == c.tasks[id].(role := role.(attempt := role.attempt + 1), at := Delay)
         && d.phase == Failed && d.ladder == Some(id)
  }

  /** A dial that fails while it is current: a question of trust ends it, and so does an error
      that no retry can mend, or the last attempt; any other error is retried, after a delay. */
  lemma FailedDialDecides(budget: nat, events: seq<Event>, id: nat, retryable: bool, trust: bool)
    requires var c := Run(budget, events);
             (IsAt(c, id, TrustStore) || IsAt(c, id, Native)) && Current(c, c.tasks[id].intent)
    ensures var c := Run(budget, events);
            c.budget == budget && FailsRight(c, id, retryable, trust, Next(c, DialError(id, retryable, trust)))
  {
    RunInv(budget, events);
    BudgetKept(budget, events);
    assert Good(Run(budget, events), id, Run(budget, events).tasks[id]);
    hide Run, Inv, Next, Good, FailsRight, DialThrows;
    DialErrorIs(Run(budget, events), id, retryable, trust);
    FailedDial(Run(budget, events), id, retryable, trust);
  }

  /** A ladder's task ends in `phase`, or goes on. */
  predicate EndsIn(d: Controller, id: nat, phase: Phase) {
    id !in d.tasks && d.ladder.None? && d.phase == phase
  }

  /** The next attempt, after a delay, or the end of the ladder. */
  predicate TriesAgain(c: Controller, d: Controller, id: nat)
    requires id in c.tasks && c.tasks[id].role.Ladder?
  {
    var role := c.tasks[id].role;
    if c.budget <= role.attempt + 1 then EndsIn(d, id, Lost)
    else id in d.tasks && d.tasks[id] == c.tasks[id].(role := role.(attempt := role.attempt + 1), at := Delay) && d.ladder == Some(id)
  }

  lemma Listed(c: Controller, id: nat, listed: bool, still: Phase, terminals: bool)
    requires id in c.tasks && c.tasks[id].role.Ladder? && c.tasks[id].at.Sessions? && Current(c, c.tasks[id].intent) && still != Reconnecting
    requires c.ladder == Some(id) && c.phase != Reconnecting
    ensures ListedRight(c, id, listed, still, terminals, OnSessions(c, id, listed, still, terminals))
  {
  }

  predicate ListedRight(c: Controller, id: nat, listed: bool, still: Phase, terminals: bool, d: Controller)
    requires id in c.tasks && c.tasks[id].role.Ladder? && c.tasks[id].at.Sessions?
  {
    if !listed then EndsIn(d, id, if c.connection == Some(c.tasks[id].at.of) then still else c.phase)
    else if c.connection.None? then TriesAgain(c, d, id)
    else if terminals then id in d.tasks && d.tasks[id] == c.tasks[id].(at := Reattach) && d.phase == Attaching && d.ladder == Some(id)
    else EndsIn(d, id, still)
  }

  /** What a current ladder makes of the session list of its new connection: without one it
      ends; with the connection gone meanwhile it tries again; else it attaches the terminals,
      if there are any, or ends. The connection stays as it is. */
  lemma ListingDecides(budget: nat, events: seq<Event>, id: nat, listed: bool, still: Phase, terminals: bool)
    requires var c := Run(budget, events); Enabled(c, SessionsListed(id, listed, still, terminals)) && Current(c, c.tasks[id].intent)
    ensures var c := Run(budget, events);
            var d := Next(c, SessionsListed(id, listed, still, terminals));
            d.connection == c.connection && ListedRight(c, id, listed, still, terminals, d)
  {
    RunInv(budget, events);
    assert Good(Run(budget, events), id, Run(budget, events).tasks[id]);
    AnswersKeep(Run(budget, events), SessionsListed(id, listed, still, terminals));
    hide Run, Inv, ListedRight, OnSessions, AfterClose, DialThrows, DialFailed, OnReturned;
    Listed(Run(budget, events), id, listed, still, terminals);
  }

  /** What it makes of the answer to an attach. */
  lemma AttachDecides(budget: nat, events: seq<Event>, id: nat, answer: Attached)
    requires var c := Run(budget, events); Enabled(c, TerminalAttached(id, answer)) && Current(c, c.tasks[id].intent)
    ensures var c := Run(budget, events);
            var d := Next(c, TerminalAttached(id, answer));
            && d.connection == c.connection
            && match answer
               case More => d == c
               case Settled(phase) => EndsIn(d, id, phase)
               case Broken => id in d.tasks && d.tasks[id] == c.tasks[id].(at := FailedPtys) && d.phase == c.phase && d.ladder == Some(id)
  {
    RunInv(budget, events);
    assert Good(Run(budget, events), id, Run(budget, events).tasks[id]);
    hide Run, Inv, OnSessions, AfterClose, DialThrows, DialFailed, OnReturned;
  }

  lemma EndsAs(c: Controller, e: Event, id: nat)
    requires id in c.tasks && Good(c, id, c.tasks[id]) && Continues(e) == Some(id) && id !in Next(c, e).tasks
    ensures var role, d := c.tasks[id].role, Next(c, e);
            && (role.Release? ==> d == c.(phase := Lost, tasks := c.tasks - {id}))
            && (role.Dispose? ==> d.phase == Idle && d.host.None? && !d.grace && d.connection.None?)
  {
    hide DialThrows, DialFailed, OnSessions, OnReturned, Resurface, Attempt;
  }

  /** In every run a release ends by reporting the connection lost, and a close by forgetting the
      host and any grace, with nothing installed. */
  lemma CallsEndWith(budget: nat, events: seq<Event>, e: Event, id: nat)
    requires id in Run(budget, events).tasks && Continues(e) == Some(id) && id !in Next(Run(budget, events), e).tasks
    ensures var c, d := Run(budget, events), Next(Run(budget, events), e);
            && (c.tasks[id].role.Release? ==> d == c.(phase := Lost, tasks := c.tasks - {id}))
            && (c.tasks[id].role.Dispose? ==> d.phase == Idle && d.host.None? && !d.grace && d.connection.None?)
  {
    RunInv(budget, events);
    assert Good(Run(budget, events), id, Run(budget, events).tasks[id]);
    hide Run, Inv, Next;
    EndsAs(Run(budget, events), e, id);
  }
}
