/** src/portForwardController.ts, port by port: what the user wants of it, whether it is live, and
    when its last open failed, by the events alone; and what a plan's ports go through. */
module PortForwardHistory {
  import opened Collections
  import opened PortForwardPolicy
  import opened PortForwardController

  datatype Port = Port(wanted: bool, forbidden: bool, live: Option<Origin>, failed: Option<int>)

  /** The port the operation under way is about. */
  predicate IsHead(f: Forwards, port: int) {
    match f.operation
    case Closing(todo, _) => todo != [] && todo[0] == port
    case Opening(todo) => todo != [] && todo[0] == port
    case _ => false
  }

  ghost function Goes(p: Port, f: Forwards, e: Event, port: int): Port {
    if !Enabled(f, e) then p
    else match e
      case SetPort(which, enabled) =>
        if which != port || port < 1 || port > 65535 then p
        else if enabled then p.(wanted := true, forbidden := false, failed := None)
        else p.(wanted := false, forbidden := true)
      case FollowPolicy(which) => if which == port then p.(wanted := false, forbidden := false, failed := None) else p
      case CloseEnds(ok) => if ok && IsHead(f, port) then p.(live := None, failed := None) else p
      case OpenEnds(ok, at) =>
        if !IsHead(f, port) then p
        else if ok then p.(live := Some(if p.wanted then Manual else Auto), failed := None)
        else p.(failed := Some(at))
      case Reconnects(same) => if same then p else p.(live := None)
      case AllEnd(closed) => if port in closed then p.(live := None) else p
      case _ => p
  }

  ghost function History(start: Forwards, events: seq<Event>, port: int): Port {
    if events == [] then Port(port in start.manual, false, None, None)
    else
      var before := events[..|events| - 1];
      Goes(History(start, before, port), Run(start, before), events[|events| - 1], port)
  }

  function Lookup<T>(entries: map<int, T>, port: int): Option<T> {
    if port in entries then Some(entries[port]) else None
  }

  /** A port as the controller holds it. */
  function View(f: Forwards, port: int): Port {
    Port(port in f.manual, port in f.off, Lookup(f.live, port), Lookup(f.failedAt, port))
  }

  /** Going on to the next port changes nothing but the operation and the misses. */
  lemma OnwardKeeps(f: Forwards, todo: seq<int>, plan: Plan, port: int)
    ensures View(CloseOn(f, todo, plan), port) == View(f, port) && View(OpenOn(f, todo), port) == View(f, port)
    decreases |todo|
  {
    OpenOnKeeps(f, todo);
    if todo == [] {
      OpenOnKeeps(f.(priorMissing := plan.missingScans), plan.openPorts);
    } else if todo[0] !in f.live {
      OnwardKeeps(f, todo[1..], plan, port);
    }
  }

  lemma CloseSteps(f: Forwards, ok: bool, port: int)
    requires f.operation.Closing? && f.operation.todo != []
    ensures View(CloseAnswered(f, ok), port) == Goes(View(f, port), f, CloseEnds(ok), port)
  {
    var todo, plan := f.operation.todo, f.operation.plan;
    var closed := if ok then f.(live := f.live - {todo[0]}, failedAt := f.failedAt - {todo[0]}) else f;
    hide CloseOn;
    OnwardKeeps(closed, todo[1..], plan, port);
  }

  function Afterwards(f: Forwards, port: int, ok: bool, at: int): Forwards {
    if ok then f.(live := f.live[port := if port in f.manual then Manual else Auto], failedAt := f.failedAt - {port})
    else f.(failedAt := f.failedAt[port := at])
  }

  lemma OpenGoes(f: Forwards, ok: bool, at: int, port: int)
    requires f.operation.Opening? && f.operation.todo != []
    ensures View(Afterwards(f, f.operation.todo[0], ok, at), port) == Goes(View(f, port), f, OpenEnds(ok, at), port)
  {
    hide IsPlan;
  }

  lemma OpenSteps(f: Forwards, ok: bool, at: int, port: int)
    requires f.operation.Opening? && f.operation.todo != []
    ensures View(OpenAnswered(f, ok, at), port) == Goes(View(f, port), f, OpenEnds(ok, at), port)
  {
    hide OpenOn, Goes, View;
    OpenGoes(f, ok, at, port);
    OpenKeeps(Afterwards(f, f.operation.todo[0], ok, at), f.operation.todo[1..], port);
  }

  lemma OpenKeeps(f: Forwards, todo: seq<int>, port: int)
    ensures View(OpenOn(f, todo), port) == View(f, port)
  {
    OpenOnKeeps(f, todo);
  }

  lemma Steps(f: Forwards, e: Event, port: int)
    ensures View(Next(f, e), port) == Goes(View(f, port), f, e, port)
  {
    if Enabled(f, e) {
      hide CloseOn, OpenOn, CloseAnswered, OpenAnswered, IsPlan;
      match e
      case Reconciles(_, _, plan) => OnwardKeeps(f, plan.closePorts, plan, port);
      case CloseEnds(ok) => CloseSteps(f, ok, port);
      case OpenEnds(ok, at) => OpenSteps(f, ok, at, port);
      case _ =>
    }
  }

  /** In every run each port is what its own events make of it. */
  lemma {:induction false} PortsAreApart(start: Forwards, events: seq<Event>, port: int)
    requires IsStart(start)
    ensures View(Run(start, events), port) == History(start, events, port)
  {
    if events != [] {
      hide Next, View, Goes;
      PortsAreApart(start, events[..|events| - 1], port);
      Steps(Run(start, events[..|events| - 1]), events[|events| - 1], port);
    }
  }

  /** In every run a reconcile plans to open exactly the ports that are wanted, not live, and did
      not fail less than the time to live ago. */
  lemma FailedPortWaits(start: Forwards, events: seq<Event>, e: Event, port: int)
    requires IsStart(start) && e.Reconciles? && Enabled(Run(start, events), e)
    ensures var p := History(start, events, port);
            port in e.plan.openPorts || port in e.plan.deferredPorts
            <==> && Wanted(InputOf(Run(start, events), e.scan, e.nowMs), port) && p.live.None?
                 && (p.failed.Some? ==> e.nowMs - p.failed.value >= Run(start, events).config.failedPortTtlMs)
  {
    PortsAreApart(start, events, port);
    hide Run, History, Wanted, IsPlan;
    PlannedExactly(InputOf(Run(start, events), e.scan, e.nowMs), e.plan, port);
  }

  // ----- what a plan's ports go through -----

  /** Ports are opened in order while there is room, and then no more. */
  lemma {:induction false} OpensExactly(f: Forwards, todo: seq<int>)
    ensures OpenOn(f, todo).operation == if todo != [] && |f.live| < Limit(f) then Opening(todo) else Idle
    decreases |todo|
  {
    if todo != [] && |f.live| >= Limit(f) {
      OpensExactly(f, todo[1..]);
    }
  }

  /** The next port that is live is closed; with none left, the opens begin. */
  lemma {:induction false} ClosesExactly(f: Forwards, todo: seq<int>, plan: Plan) returns (k: nat)
    ensures k <= |todo| && (forall j | 0 <= j < k :: todo[j] !in f.live) && (k < |todo| ==> todo[k] in f.live)
    ensures CloseOn(f, todo, plan)
         == if k == |todo| then OpenOn(f.(priorMissing := plan.missingScans), plan.openPorts) else f.(operation := Closing(todo[k..], plan))
    decreases |todo|
  {
    k := 0;
    if todo == [] {
    } else if todo[0] in f.live {
      assert todo[0..] == todo;
    } else {
      hide OpenOn;
      var n := ClosesExactly(f, todo[1..], plan);
      k := n + 1;
      assert todo[1..][n..] == todo[k..];
    }
  }
}
