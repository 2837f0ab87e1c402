/** src/portForwardController.ts: plans carried out one operation at a time, while the user
    may change what is wanted between any two answers. */
module PortForwardController {
  import opened Collections
  import opened PortForwardPolicy

  /** The operation at the head of the queue, and what it waits for. */
  datatype Operation =
    | Idle
    | Closing(todo: seq<int>, plan: Plan)
    | Opening(todo: seq<int>)
    | Swapping
    | ClosingAll

  /** `limit` is the configured maximum of live forwards. */
  datatype Forwards = Forwards(
    manual: set<int>, off: set<int>, live: map<int, Origin>, priorMissing: map<int, nat>, failedAt: map<int, int>,
    autoEnabled: bool, operation: Operation, config: Config, sshConfig: set<int>)

  const NATIVE_LIMIT: int := 8

  function Init(config: Config, manual: set<int>, sshConfig: set<int>): Forwards {
    Forwards(Valid(manual), {}, map[], map[], map[], true, Idle, config, sshConfig)
  }

  function Limit(f: Forwards): int {
    if f.config.maxActiveForwards < NATIVE_LIMIT then f.config.maxActiveForwards else NATIVE_LIMIT
  }

  /** What the planner is given. */
  function InputOf(f: Forwards, scan: Scan, nowMs: int): Input {
    Input(scan, f.live, f.manual, map p | p in f.off :: ForceOff, f.sshConfig, f.autoEnabled, f.priorMissing, f.failedAt, nowMs,
          f.config)
  }

  // ----- the steps -----

  function SetManual(f: Forwards, port: int, enabled: bool): Forwards {
    if !IsValidTcpPort(port) then f
    else if enabled then f.(manual := f.manual + {port}, off := f.off - {port}, failedAt := f.failedAt - {port})
    else f.(manual := f.manual - {port}, off := f.off + {port})
  }

  function Follow(f: Forwards, port: int): Forwards {
    f.(manual := f.manual - {port}, off := f.off - {port}, failedAt := f.failedAt - {port})
  }

  /** Skip ports that are no longer live; after the last, forget the old misses and open. */
  function CloseOn(f: Forwards, todo: seq<int>, plan: Plan): Forwards
    decreases |todo|
  {
    if todo == [] then OpenOn(f.(priorMissing := plan.missingScans), plan.openPorts)
    else if todo[0] !in f.live then CloseOn(f, todo[1..], plan)
    else f.(operation := Closing(todo, plan))
  }

  /** Defer the rest once the limit is reached. */
  function OpenOn(f: Forwards, todo: seq<int>): Forwards
    decreases |todo|
  {
    if todo == [] then f.(operation := Idle)
    else if |f.live| >= Limit(f) then OpenOn(f, todo[1..])
    else f.(operation := Opening(todo))
  }

  function ApplyScan(f: Forwards, plan: Plan): Forwards {
    CloseOn(f, plan.closePorts, plan)
  }

  function CloseAnswered(f: Forwards, ok: bool): Forwards
    requires f.operation.Closing? && f.operation.todo != []
  {
    var todo, plan := f.operation.todo, f.operation.plan;
    var closed := if ok then f.(live := f.live - {todo[0]}, failedAt := f.failedAt - {todo[0]}) else f;
    SubsetSize(closed.live.Keys, f.live.Keys);
    CloseOn(closed, todo[1..], plan)
  }

  function OpenAnswered(f: Forwards, ok: bool, nowMs: int): Forwards
    requires f.operation.Opening? && f.operation.todo != []
  {
    var port := f.operation.todo[0];
    var afterwards :=
      if ok then f.(live := f.live[port := if port in f.manual then Manual else Auto], failedAt := f.failedAt - {port})
      else f.(failedAt := f.failedAt[port := nowMs]);
    OpenOn(afterwards, f.operation.todo[1..])
  }

  function SetConnection(f: Forwards, same: bool): Forwards {
    if same then f else f.(live := map[], priorMissing := map[], operation := Swapping)
  }

  function AllClosed(f: Forwards, closed: set<int>): Forwards {
    f.(live := f.live - closed, operation := Idle)
  }

  // ----- the controller -----

  class PortForwardController {
    var desiredManualPorts: set<int>
    var forcedOff: set<int>
    var forwards: map<int, Origin>
    var priorMissingScans: map<int, nat>
    var failedAt: map<int, int>
    var autoEnabled: bool
    var operation: Operation
    const config: Config
    const sshConfigPorts: set<int>

    function State(): Forwards
      reads this
    {
      Forwards(desiredManualPorts, forcedOff, forwards, priorMissingScans, failedAt, autoEnabled, operation, config,
               sshConfigPorts)
    }

    constructor (config: Config, manual: set<int>, sshConfig: set<int>)
      ensures State() == Init(config, manual, sshConfig)
    {
      this.config, sshConfigPorts := config, sshConfig;
      desiredManualPorts, forcedOff, forwards := Valid(manual), {}, map[];
      priorMissingScans, failedAt, autoEnabled, operation := map[], map[], true, Idle;
    }

    method SetManualDesiredPort(port: int, enabled: bool) returns (valid: bool)
      modifies this
      ensures State() == SetManual(old(State()), port, enabled) && valid == IsValidTcpPort(port)
    {
      valid := IsValidTcpPort(port);
      if valid {
        if enabled {
          desiredManualPorts, forcedOff := desiredManualPorts + {port}, forcedOff - {port};
          failedAt := failedAt - {port};
        } else {
          desiredManualPorts, forcedOff := desiredManualPorts - {port}, forcedOff + {port};
        }
      }
    }

    method SetAutoEnabled(enabled: bool)
      modifies this`autoEnabled
      ensures State() == old(State()).(autoEnabled := enabled)
    {
      autoEnabled := enabled;
    }

    method CloseAll()
      requires operation.Idle?
      modifies this`operation
      ensures State() == old(State()).(operation := ClosingAll)
    {
      operation := ClosingAll;
    }

    method FollowAutomaticPolicy(port: int)
      modifies this
      ensures State() == Follow(old(State()), port)
    {
      desiredManualPorts, forcedOff := desiredManualPorts - {port}, forcedOff - {port};
      failedAt := failedAt - {port};
    }

    method Reconcile(scan: Scan, nowMs: int) returns (ghost plan: Plan)
      requires operation.Idle?
      modifies this
      ensures IsPlan(InputOf(old(State()), scan, nowMs), plan)
      ensures State() == ApplyScan(old(State()), plan)
    {
      var made := PlanPortForwards(InputOf(State(), scan, nowMs));
      plan := made;
      Close(made.closePorts, made);
    }

    method Close(ports: seq<int>, plan: Plan)
      modifies this
      ensures State() == CloseOn(old(State()), ports, plan)
    {
      var todo := ports;
      while |todo| > 0 && todo[0] !in forwards
        invariant State() == old(State()) && CloseOn(State(), todo, plan) == CloseOn(State(), ports, plan)
        decreases |todo|
      {
        todo := todo[1..];
      }
      if |todo| > 0 {
        operation := Closing(todo, plan);
      } else {
        priorMissingScans := plan.missingScans;
        Open(plan.openPorts);
      }
    }

    method Open(ports: seq<int>)
      modifies this`operation
      ensures State() == OpenOn(old(State()), ports)
    {
      var todo := ports;
      while |todo| > 0 && |forwards| >= MaxLive()
        invariant State() == old(State()) && OpenOn(State(), todo) == OpenOn(State(), ports)
        decreases |todo|
      {
        todo := todo[1..];
      }
      operation := if |todo| > 0 then Opening(todo) else Idle;
    }

    function MaxLive(): (limit: int)
      reads this
      ensures limit == Limit(State())
    {
      if config.maxActiveForwards < NATIVE_LIMIT then config.maxActiveForwards else NATIVE_LIMIT
    }

    method OnClosed(ok: bool)
      requires operation.Closing? && operation.todo != []
      modifies this
      ensures State() == CloseAnswered(old(State()), ok)
    {
      var port, rest, plan := operation.todo[0], operation.todo[1..], operation.plan;
      if ok {
        forwards, failedAt := forwards - {port}, failedAt - {port};
      }
      Close(rest, plan);
    }

    method OnOpened(ok: bool, nowMs: int)
      requires operation.Opening? && operation.todo != []
      modifies this
      ensures State() == OpenAnswered(old(State()), ok, nowMs)
    {
      var port, rest := operation.todo[0], operation.todo[1..];
      if ok {
        forwards := forwards[port := if port in desiredManualPorts then Manual else Auto];
        failedAt := failedAt - {port};
      } else {
        failedAt := failedAt[port := nowMs];
      }
      Open(rest);
    }

    method Swap(same: bool)
      requires operation.Idle?
      modifies this
      ensures State() == SetConnection(old(State()), same)
    {
      if !same {
        forwards, priorMissingScans, operation := map[], map[], Swapping;
      }
    }

    method OnAllClosed(closed: set<int>)
      modifies this
      ensures State() == AllClosed(old(State()), closed)
    {
      forwards, operation := forwards - closed, Idle;
    }
  }

  // ----- every run -----

  datatype Event =
    | SetAuto(enabled: bool)
    | SetPort(port: int, enabled: bool)
    | FollowPolicy(port: int)
    | Reconciles(scan: Scan, nowMs: int, plan: Plan)
    | CloseEnds(ok: bool)
    | OpenEnds(ok: bool, at: int)
    | Reconnects(same: bool)
    | ReleasesAll
    | AllEnd(closed: set<int>)

  ghost predicate Enabled(f: Forwards, e: Event) {
    match e
    case Reconciles(scan, nowMs, plan) => f.operation.Idle? && IsPlan(InputOf(f, scan, nowMs), plan)
    case CloseEnds(_) => f.operation.Closing? && f.operation.todo != []
    case OpenEnds(_, _) => f.operation.Opening? && f.operation.todo != []
    case Reconnects(_) => f.operation.Idle?
    case ReleasesAll => f.operation.Idle?
    case AllEnd(closed) => f.operation.ClosingAll? || (f.operation.Swapping? && closed == {})
    case _ => true
  }

  ghost function Next(f: Forwards, e: Event): Forwards {
    if !Enabled(f, e) then f
    else match e
      case SetAuto(enabled) => f.(autoEnabled := enabled)
      case SetPort(port, enabled) => SetManual(f, port, enabled)
      case FollowPolicy(port) => Follow(f, port)
      case Reconciles(_, _, plan) => ApplyScan(f, plan)
      case CloseEnds(ok) => CloseAnswered(f, ok)
      case OpenEnds(ok, at) => OpenAnswered(f, ok, at)
      case Reconnects(same) => SetConnection(f, same)
      case ReleasesAll => f.(operation := ClosingAll)
      case AllEnd(closed) => AllClosed(f, closed)
  }

  ghost function Run(start: Forwards, events: seq<Event>): Forwards {
    if events == [] then start else Next(Run(start, events[..|events| - 1]), events[|events| - 1])
  }

  /** How many of the latest reconciles, in a row, had a conclusive scan that lacks the port. */
  ghost function Streak(start: Forwards, events: seq<Event>, port: int): nat {
    if events == [] then 0
    else
      var before, e := events[..|events| - 1], events[|events| - 1];
      if !e.Reconciles? || !Enabled(Run(start, before), e) then Streak(start, before, port)
      else if ProvesAbsent(e.scan, port) then Streak(start, before, port) + 1
      else 0
  }

  predicate IsStart(f: Forwards) {
    f == Init(f.config, f.manual, f.sshConfig)
  }

  predicate WithinLimit(f: Forwards) {
    |f.live| <= Max(Limit(f), 0)
  }

  /** The misses on record, or about to be, were all seen in a row. */
  ghost predicate Counted(f: Forwards, start: Forwards, events: seq<Event>) {
    && (forall p | p in f.priorMissing && !f.operation.Closing? :: f.priorMissing[p] <= Streak(start, events, p))
    && (f.operation.Closing? ==>
          forall p | p in f.operation.plan.missingScans :: f.operation.plan.missingScans[p] <= Streak(start, events, p))
  }

  /** A place is free for the awaited open. */
  predicate HasRoom(f: Forwards) {
    f.operation.Opening? ==> |f.live| < Limit(f)
  }

  ghost predicate Inv(f: Forwards, start: Forwards, events: seq<Event>) {
    WithinLimit(f) && HasRoom(f) && Counted(f, start, events)
  }

  lemma OpenOnKeeps(f: Forwards, todo: seq<int>)
    ensures var g := OpenOn(f, todo);
            && g == f.(operation := g.operation) && !g.operation.Closing? && HasRoom(g)
            && (g.operation.Opening? ==> g.operation.todo != [])
    decreases |todo|
  {
    if todo != [] && |f.live| >= Limit(f) {
      OpenOnKeeps(f, todo[1..]);
    }
  }

  lemma CloseOnKeeps(f: Forwards, todo: seq<int>, plan: Plan)
    ensures var g := CloseOn(f, todo, plan);
            && g.live == f.live && g.config == f.config && HasRoom(g)
            && (if g.operation.Closing? then g.operation.plan == plan && g.priorMissing == f.priorMissing
                else g.priorMissing == plan.missingScans)
    decreases |todo|
  {
    if todo == [] {
      OpenOnKeeps(f.(priorMissing := plan.missingScans), plan.openPorts);
    } else if todo[0] !in f.live {
      CloseOnKeeps(f, todo[1..], plan);
    }
  }

  lemma Snoc(start: Forwards, before: seq<Event>, e: Event)
    ensures Run(start, before + [e]) == Next(Run(start, before), e)
    ensures forall p ::
              Streak(start, before + [e], p) == if !e.Reconciles? || !Enabled(Run(start, before), e) then Streak(start, before, p)
                                                else if ProvesAbsent(e.scan, p) then Streak(start, before, p) + 1
                                                else 0
  {
    assert (before + [e])[..|before|] == before;
  }

  /** The misses a plan records were seen in a row, this scan included. */
  lemma PlanCounts(start: Forwards, before: seq<Event>, e: Event, p: int)
    requires e.Reconciles? && Enabled(Run(start, before), e) && Counted(Run(start, before), start, before)
    requires p in Run(start, before).live && Absent(InputOf(Run(start, before), e.scan, e.nowMs), p)
    ensures Misses(InputOf(Run(start, before), e.scan, e.nowMs), p) <= Streak(start, before + [e], p)
  {
    Snoc(start, before, e);
  }

  lemma LimitAfterOpen(f: Forwards, port: int, origin: Origin)
    requires |f.live| < Limit(f)
    ensures |f.live[port := origin]| <= Limit(f)
  {
    assert f.live[port := origin].Keys == f.live.Keys + {port};
  }

  lemma SubsetSize(a: set<int>, b: set<int>)
    requires a <= b
    ensures |a| <= |b|
  {
    if |a| > 0 {
      SomePort(a);
      var x :| x in a;
      SubsetSize(a - {x}, b - {x});
    }
  }

  lemma ReconcileInv(f: Forwards, start: Forwards, before: seq<Event>, e: Event)
    requires f == Run(start, before) && Inv(f, start, before) && e.Reconciles? && Enabled(f, e)
    ensures Inv(Next(f, e), start, before + [e])
  {
    var i := InputOf(f, e.scan, e.nowMs);
    CloseOnKeeps(f, e.plan.closePorts, e.plan);
    forall p | p in e.plan.missingScans
      ensures e.plan.missingScans[p] <= Streak(start, before + [e], p)
    {
      assert p in i.active && Absent(i, p);
      PlanCounts(start, before, e, p);
    }
  }

  lemma CloseInv(f: Forwards, start: Forwards, events: seq<Event>, ok: bool)
    requires Inv(f, start, events) && f.operation.Closing? && f.operation.todo != []
    ensures Inv(CloseAnswered(f, ok), start, events)
  {
    var todo, plan := f.operation.todo, f.operation.plan;
    var closed := if ok then f.(live := f.live - {todo[0]}, failedAt := f.failedAt - {todo[0]}) else f;
    SubsetSize(closed.live.Keys, f.live.Keys);
    CloseOnKeeps(closed, todo[1..], plan);
  }

  lemma OpenInv(f: Forwards, start: Forwards, events: seq<Event>, ok: bool, at: int)
    requires Inv(f, start, events) && f.operation.Opening? && f.operation.todo != []
    ensures Inv(OpenAnswered(f, ok, at), start, events)
  {
    var port := f.operation.todo[0];
    var origin := if port in f.manual then Manual else Auto;
    var afterwards := if ok then f.(live := f.live[port := origin], failedAt := f.failedAt - {port})
                  else f.(failedAt := f.failedAt[port := at]);
    LimitAfterOpen(f, port, origin);
    OpenOnKeeps(afterwards, f.operation.todo[1..]);
  }

  lemma AllShrink(f: Forwards, closed: set<int>)
    ensures var g := AllClosed(f, closed); g == f.(live := g.live, operation := Idle) && |g.live| <= |f.live|
  {
    SubsetSize((f.live - closed).Keys, f.live.Keys);
  }

  /** No other step opens a forward, counts a miss or begins to close or open. */
  lemma OthersShrink(f: Forwards, e: Event)
    requires Enabled(f, e) && !e.Reconciles? && !e.CloseEnds? && !e.OpenEnds?
    ensures var g := Next(f, e);
            && g.config == f.config && |g.live| <= |f.live| && (g.priorMissing == f.priorMissing || g.priorMissing == map[])
            && (g.operation == f.operation || (!g.operation.Opening? && !g.operation.Closing? && !f.operation.Closing?))
  {
    hide Valid, IsPlan, InputOf, AllClosed, CloseAnswered, OpenAnswered, ApplyScan;
    match e
    case AllEnd(closed) => AllShrink(f, closed);
    case _ =>
  }

  lemma OtherInv(f: Forwards, start: Forwards, events: seq<Event>, e: Event)
    requires Inv(f, start, events) && Enabled(f, e) && !e.Reconciles? && !e.CloseEnds? && !e.OpenEnds?
    ensures Inv(Next(f, e), start, events)
  {
    OthersShrink(f, e);
    hide Enabled, Next, Streak;
  }

  lemma {:induction false} RunInv(start: Forwards, events: seq<Event>)
    requires IsStart(start)
    ensures Inv(Run(start, events), start, events)
  {
    if events != [] {
      var before, e := events[..|events| - 1], events[|events| - 1];
      var f := Run(start, before);
      RunInv(start, before);
      assert events == before + [e];
      Snoc(start, before, e);
      if Enabled(f, e) {
        match e
        case Reconciles(_, _, _) => ReconcileInv(f, start, before, e);
        case CloseEnds(ok) => CloseInv(f, start, before, ok);
        case OpenEnds(ok, at) => OpenInv(f, start, before, ok, at);
        case _ => OtherInv(f, start, before, e);
      }
    }
  }

  /** Over every run there are never more live forwards than the limit, and never more than 8. */
  lemma NeverTooMany(start: Forwards, events: seq<Event>)
    requires IsStart(start)
    ensures |Run(start, events).live| <= Max(Limit(Run(start, events)), 0) <= 8
  {
    RunInv(start, events);
  }

  /** A tunnel is closed for absence only after that many reconciles in a row whose scans
      succeeded, saw a valid port and lacked this one; any other reconcile starts over. */
  lemma AbsenceTakesScans(start: Forwards, before: seq<Event>, e: Event, port: int)
    requires IsStart(start) && e.Reconciles? && Enabled(Run(start, before), e)
    requires port in e.plan.closePorts && port in Run(start, before).live
    requires !GivenUp(InputOf(Run(start, before), e.scan, e.nowMs), port)
    ensures Streak(start, before + [e], port) >= Max(1, Run(start, before).config.missingScansBeforeStop)
  {
    RunInv(start, before);
    AbsenceNeedsProof(InputOf(Run(start, before), e.scan, e.nowMs), e.plan, port);
    assert port in ToSet(e.plan.closePorts);
    PlanCounts(start, before, e, port);
  }

  /** Only a close the plan asked for, a new connection or a release of all ends a tunnel. */
  lemma OnlyTheseEnd(f: Forwards, e: Event, port: int)
    requires port in f.live && port !in Next(f, e).live
    ensures e.CloseEnds? || e.Reconnects? || e.AllEnd?
    ensures e.CloseEnds? ==> e.ok && f.operation.Closing? && port == f.operation.todo[0]
  {
    match e
    case Reconciles(_, _, plan) => CloseOnKeeps(f, plan.closePorts, plan);
    case CloseEnds(ok) =>
      if Enabled(f, e) {
        var todo, plan := f.operation.todo, f.operation.plan;
        CloseOnKeeps(if ok then f.(live := f.live - {todo[0]}, failedAt := f.failedAt - {todo[0]}) else f, todo[1..], plan);
      }
    case OpenEnds(ok, at) =>
      if Enabled(f, e) {
        var p := f.operation.todo[0];
        OpenOnKeeps(f.(live := f.live[p := if p in f.manual then Manual else Auto], failedAt := f.failedAt - {p}), f.operation.todo[1..]);
        OpenOnKeeps(f.(failedAt := f.failedAt[p := at]), f.operation.todo[1..]);
      }
    case _ =>
  }
}
