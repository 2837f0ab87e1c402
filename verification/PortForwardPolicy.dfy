/** src/portForwardPolicy.ts: which remote ports to forward. */
module PortForwardPolicy {
  import opened Collections

  datatype Origin = SshConfig | Auto | Manual

  datatype Intent = ForceOn | ForceOff

  datatype Scan = Scan(ok: bool, ports: seq<int>)

  datatype Config = Config(
    skipPortsBelow: int, maxAutoPort: int, skipPorts: set<int>, missingScansBeforeStop: int, failedPortTtlMs: int,
    maxActiveForwards: int)

  /** `manual` are the user's opt-ins, `failedAt` when an open last failed. */
  datatype Input = Input(
    scan: Scan, active: map<int, Origin>, manual: set<int>, intents: map<int, Intent>, sshConfig: set<int>,
    autoEnabled: bool, priorMissing: map<int, nat>, failedAt: map<int, int>, nowMs: int, config: Config)

  datatype Plan = Plan(
    openPorts: seq<int>, closePorts: seq<int>, deferredPorts: seq<int>, desiredPorts: seq<int>, missingScans: map<int, nat>,
    interestingPorts: seq<int>)

  predicate IsValidTcpPort(port: int) {
    1 <= port <= 65535
  }

  predicate IsInteresting(port: int, c: Config) {
    IsValidTcpPort(port) && c.skipPortsBelow <= port <= c.maxAutoPort && port !in c.skipPorts
  }

  // ----- what the plan is made of -----

  predicate Has(intents: map<int, Intent>, port: int, intent: Intent) {
    port in intents && intents[port] == intent
  }

  function Valid(ports: set<int>): set<int> {
    set p | p in ports && IsValidTcpPort(p)
  }

  function ManualPorts(i: Input): set<int> {
    set p | p in i.manual + i.intents.Keys && IsValidTcpPort(p)
            && (p in i.manual || Has(i.intents, p, ForceOn)) && !Has(i.intents, p, ForceOff)
  }

  function Observed(scan: Scan): set<int> {
    if scan.ok then Valid(ToSet(scan.ports)) else {}
  }

  function Interesting(i: Input): set<int> {
    set p | p in Observed(i.scan) && IsInteresting(p, i.config)
  }

  function AutoTargets(i: Input): set<int> {
    if !i.autoEnabled then {}
    else set p | p in Interesting(i) && !Has(i.intents, p, ForceOff) && p !in Valid(i.sshConfig)
  }

  function ManualTargets(i: Input): set<int> {
    set p | p in ManualPorts(i) && !Has(i.intents, p, ForceOff) && p !in Valid(i.sshConfig)
  }

  function Desired(i: Input): set<int> {
    ManualTargets(i) + AutoTargets(i)
  }

  /** A scan that succeeded and saw a valid port; a blank one proves nothing. */
  predicate CanProveAbsence(scan: Scan) {
    scan.ok && exists k :: 0 <= k < |scan.ports| && IsValidTcpPort(scan.ports[k])
  }

  /** A scan from which the port is missing. */
  predicate ProvesAbsent(scan: Scan, port: int) {
    CanProveAbsence(scan) && port !in Observed(scan)
  }

  function Max(a: int, b: int): int {
    if a >= b then a else b
  }

  function Misses(i: Input, port: int): nat {
    (if port in i.priorMissing then i.priorMissing[port] else 0) + 1
  }

  predicate WasAutoCreated(i: Input, port: int)
    requires port in i.active
  {
    i.active[port] == Auto || (i.active[port] == Manual && port !in ManualPorts(i))
  }

  /** The user, or a switched-off policy, gives the tunnel up. */
  predicate GivenUp(i: Input, port: int)
    requires port in i.active
  {
    && i.active[port] != SshConfig
    && (Has(i.intents, port, ForceOff) || (!i.autoEnabled && WasAutoCreated(i, port) && port !in Desired(i)))
  }

  /** An automatic tunnel whose port is missing from this scan. */
  predicate Absent(i: Input, port: int)
    requires port in i.active
  {
    && i.active[port] != SshConfig && !GivenUp(i, port) && port !in ManualPorts(i) && port !in Desired(i)
    && WasAutoCreated(i, port) && ProvesAbsent(i.scan, port)
  }

  predicate GoneForGood(i: Input, port: int)
    requires port in i.active
  {
    Absent(i, port) && Misses(i, port) >= Max(1, i.config.missingScansBeforeStop)
  }

  predicate Closes(i: Input, port: int)
    requires port in i.active
  {
    GivenUp(i, port) || GoneForGood(i, port)
  }

  function Closing(i: Input): set<int> {
    set p | p in i.active && Closes(i, p)
  }

  predicate MayRetry(i: Input, port: int) {
    port in i.failedAt ==> i.nowMs - i.failedAt[port] >= i.config.failedPortTtlMs
  }

  function Candidates(i: Input): set<int> {
    (set p | p in ManualTargets(i) && p !in i.active) + (set p | p in AutoTargets(i) && p !in i.active && p !in ManualPorts(i))
  }

  function Retryable(i: Input): set<int> {
    set p | p in Candidates(i) && MayRetry(i, p)
  }

  function FreeSlots(i: Input): nat {
    var free := i.config.maxActiveForwards - |i.active.Keys - Closing(i)|;
    if free > 0 then free else 0
  }

  /** Manual ports first, then by number. */
  predicate Before(manual: set<int>, a: int, b: int) {
    if a in manual && b !in manual then true else if a !in manual && b in manual then false else a < b
  }

  predicate Ranked(ports: seq<int>, manual: set<int>) {
    forall j, k | 0 <= j < k < |ports| :: Before(manual, ports[j], ports[k])
  }

  /** What the plan for an input is. */
  ghost predicate IsPlan(i: Input, plan: Plan) {
    && ToSet(plan.closePorts) == Closing(i) && Ranked(plan.closePorts, {})
    && ToSet(plan.desiredPorts) == Desired(i) && Ranked(plan.desiredPorts, {})
    && ToSet(plan.interestingPorts) == Interesting(i) && Ranked(plan.interestingPorts, {})
    && (forall p :: p in plan.missingScans <==> p in i.active && Absent(i, p) && !GoneForGood(i, p))
    && (forall p | p in plan.missingScans :: plan.missingScans[p] == Misses(i, p))
    && ToSet(plan.openPorts + plan.deferredPorts) == Retryable(i)
    && Ranked(plan.openPorts + plan.deferredPorts, ManualPorts(i))
    && |plan.openPorts| <= FreeSlots(i) && (plan.deferredPorts != [] ==> |plan.openPorts| == FreeSlots(i))
  }

  // ----- the planner -----

  /** `sort` by rank. */
  method Sorted(ports: set<int>, manual: set<int>) returns (r: seq<int>)
    ensures ToSet(r) == ports && Ranked(r, manual) && |r| == |ports|
  {
    r := [];
    var left := ports;
    while |left| > 0
      invariant left <= ports && ToSet(r) == ports - left && Ranked(r, manual) && |r| == |ports| - |left|
      invariant forall a, b | a in r && b in left :: Before(manual, a, b)
      decreases left
    {
      var next := First(left, manual);
      left := left - {next};
      r := r + [next];
    }
  }

  lemma SomePort(ports: set<int>)
    requires |ports| > 0
    ensures exists p :: p in ports
  {
    assert (forall p :: p !in ports) ==> ports == {};
  }

  method First(ports: set<int>, manual: set<int>) returns (first: int)
    requires |ports| > 0
    ensures first in ports && forall p | p in ports && p != first :: Before(manual, first, p)
  {
    SomePort(ports);
    first :| first in ports;
    var left := ports - {first};
    while |left| > 0
      invariant left <= ports && first in ports && first !in left
      invariant forall p | p in ports && p !in left && p != first :: Before(manual, first, p)
      decreases left
    {
      SomePort(left);
      var p :| p in left;
      left := left - {p};
      if Before(manual, p, first) {
        first := p;
      }
    }
    assert left == {};
  }

  /** The sweep over the live tunnels. */
  method Sweep(i: Input) returns (close: set<int>, missing: map<int, nat>)
    ensures close == Closing(i)
    ensures forall p :: p in missing <==> p in i.active && Absent(i, p) && !GoneForGood(i, p)
    ensures forall p | p in missing :: missing[p] == Misses(i, p)
  {
    close, missing := {}, map[];
    var manual, desired, observed := ManualPorts(i), Desired(i), Observed(i.scan);
    var left := i.active.Keys;
    while |left| > 0
      invariant left <= i.active.Keys
      invariant forall p :: p in close <==> p in i.active.Keys - left && Closes(i, p)
      invariant forall p :: p in missing <==> p in i.active.Keys - left && Absent(i, p) && !GoneForGood(i, p)
      invariant forall p | p in missing :: missing[p] == Misses(i, p)
      decreases left
    {
      SomePort(left);
      var port :| port in left;
      left := left - {port};
      var origin := i.active[port];
      if origin != SshConfig {
        var wasAuto := origin == Auto || (origin == Manual && port !in manual);
        if Has(i.intents, port, ForceOff) || (!i.autoEnabled && wasAuto && port !in desired) {
          close := close + {port};
        } else if port !in manual && port !in desired && wasAuto && CanProveAbsence(i.scan) && port !in observed {
          var misses := Misses(i, port);
          if misses >= Max(1, i.config.missingScansBeforeStop) {
            close := close + {port};
          } else {
            missing := missing[port := misses];
          }
        }
      }
    }
    assert left == {} && i.active.Keys - left == i.active.Keys;
    assert forall p :: p in close <==> p in Closing(i);
  }

  method PlanPortForwards(i: Input) returns (plan: Plan)
    ensures IsPlan(i, plan)
  {
    hide Closing, Desired, Interesting, Retryable, FreeSlots, ManualPorts, Absent, GoneForGood, Misses, Ranked;
    var close, missing := Sweep(i);
    var closePorts := Sorted(close, {});
    var desiredPorts := Sorted(Desired(i), {});
    var interestingPorts := Sorted(Interesting(i), {});
    var retryable := Sorted(Retryable(i), ManualPorts(i));
    var free := FreeSlots(i);
    if |retryable| <= free {
      plan := Plan(retryable, closePorts, [], desiredPorts, missing, interestingPorts);
      assert retryable + [] == retryable;
    } else {
      plan := Plan(retryable[..free], closePorts, retryable[free..], desiredPorts, missing, interestingPorts);
      assert retryable[..free] + retryable[free..] == retryable;
    }
  }

  // ----- what a plan guarantees -----

  /** No automatic port is opened while a manual candidate is deferred. */
  lemma ManualFirst(i: Input, plan: Plan, now: int, later: int)
    requires IsPlan(i, plan) && now in plan.openPorts && later in plan.deferredPorts && later in ManualPorts(i)
    ensures now in ManualPorts(i)
  {
    hide Closing, Retryable, FreeSlots, Absent, GoneForGood, ToSet;
    var all := plan.openPorts + plan.deferredPorts;
    var j :| 0 <= j < |plan.openPorts| && plan.openPorts[j] == now;
    var k :| 0 <= k < |plan.deferredPorts| && plan.deferredPorts[k] == later;
    assert all[j] == now && all[|plan.openPorts| + k] == later;
    assert Before(ManualPorts(i), all[j], all[|plan.openPorts| + k]);
  }

  /** A tunnel is given up for absence only by a conclusive scan that lacks it, once the
      misses have added up; an inconclusive scan forgets them all. */
  lemma AbsenceNeedsProof(i: Input, plan: Plan, port: int)
    requires IsPlan(i, plan) && port in plan.closePorts && port in i.active && !GivenUp(i, port)
    ensures ProvesAbsent(i.scan, port) && Misses(i, port) >= Max(1, i.config.missingScansBeforeStop)
    ensures i.active[port] != SshConfig && port !in ManualPorts(i)
  {
    assert port in ToSet(plan.closePorts);
  }

  lemma InconclusiveForgets(i: Input, plan: Plan)
    requires IsPlan(i, plan) && !CanProveAbsence(i.scan)
    ensures plan.missingScans == map[]
  {
    assert forall p :: p !in plan.missingScans;
  }

  /** The user wants the port. */
  predicate OptedIn(i: Input, port: int) {
    && 1 <= port <= 65535 && !Has(i.intents, port, ForceOff)
    && (port in i.manual || Has(i.intents, port, ForceOn))
  }

  /** The scan found the port in the automatic range. */
  predicate Discovered(i: Input, port: int) {
    && i.autoEnabled && i.scan.ok && port in i.scan.ports && !Has(i.intents, port, ForceOff)
    && 1 <= port <= 65535 && i.config.skipPortsBelow <= port <= i.config.maxAutoPort && port !in i.config.skipPorts
  }

  /** The last open of the port failed, less than the time to live ago. */
  predicate HeldDown(i: Input, port: int) {
    port in i.failedAt && i.nowMs < i.failedAt[port] + i.config.failedPortTtlMs
  }

  lemma ManualIs(i: Input, port: int)
    ensures port in ManualPorts(i) <==> OptedIn(i, port)
  {
  }

  lemma AutoIs(i: Input, port: int)
    ensures port in AutoTargets(i) <==> Discovered(i, port) && port !in i.sshConfig
  {
    assert port in Observed(i.scan) <==> i.scan.ok && port in i.scan.ports && IsValidTcpPort(port);
    assert port in Valid(i.sshConfig) <==> port in i.sshConfig && IsValidTcpPort(port);
  }

  lemma ManualTargetIs(i: Input, port: int)
    ensures port in ManualTargets(i) <==> OptedIn(i, port) && port !in i.sshConfig
  {
    hide ManualPorts;
    ManualIs(i, port);
    assert port in Valid(i.sshConfig) <==> port in i.sshConfig && IsValidTcpPort(port);
  }

  /** What the user or the policy wants forwarded. */
  predicate Wanted(i: Input, port: int) {
    (OptedIn(i, port) || Discovered(i, port)) && port !in i.sshConfig
  }

  lemma DesiredIs(i: Input, port: int)
    ensures port in Desired(i) <==> Wanted(i, port)
  {
    hide ManualTargets, AutoTargets, OptedIn, Discovered;
    ManualTargetIs(i, port);
    AutoIs(i, port);
  }

  lemma RetryableIs(i: Input, port: int)
    ensures port in Retryable(i) <==> Wanted(i, port) && port !in i.active && !HeldDown(i, port)
  {
    hide ManualTargets, AutoTargets, ManualPorts, OptedIn, Discovered;
    ManualTargetIs(i, port);
    AutoIs(i, port);
    ManualIs(i, port);
  }

  lemma InToSet(ports: seq<int>, port: int)
    ensures port in ToSet(ports) <==> port in ports
  {
  }

  /** A port is to be opened, now or when there is room, exactly if it is wanted, not live yet,
      and not held down after a failure. */
  lemma PlannedExactly(i: Input, plan: Plan, port: int)
    requires IsPlan(i, plan)
    ensures port in plan.openPorts || port in plan.deferredPorts <==> Wanted(i, port) && port !in i.active && !HeldDown(i, port)
  {
    hide Wanted, HeldDown, Closing, Retryable, Desired, Interesting, FreeSlots, Absent, GoneForGood, Ranked, ToSet;
    RetryableIs(i, port);
    InToSet(plan.openPorts + plan.deferredPorts, port);
  }

  /** A live tunnel the policy may take down: not the SSH configuration's, nor one the user wants. */
  predicate Owned(i: Input, port: int) {
    port in i.active && (i.active[port] == Auto || (i.active[port] == Manual && !OptedIn(i, port)))
  }

  /** Nobody wants the tunnel any more, and the policy is off, or enough conclusive scans in a
      row lacked its port. */
  predicate Unwanted(i: Input, port: int) {
    && Owned(i, port) && !Wanted(i, port)
    && (!i.autoEnabled || (!OptedIn(i, port) && ProvesAbsent(i.scan, port) && Misses(i, port) >= Max(1, i.config.missingScansBeforeStop)))
  }

  lemma ClosesIs(i: Input, port: int)
    requires port in i.active
    ensures Closes(i, port) <==> (i.active[port] != SshConfig && Has(i.intents, port, ForceOff)) || Unwanted(i, port)
  {
    hide ManualPorts, Desired, Wanted, OptedIn, ProvesAbsent;
    ManualIs(i, port);
    DesiredIs(i, port);
  }

  /** A live tunnel is closed exactly if the user forbids its port or it is unwanted. */
  lemma ClosedExactly(i: Input, plan: Plan, port: int)
    requires IsPlan(i, plan)
    ensures port in plan.closePorts
       <==> port in i.active && ((i.active[port] != SshConfig && Has(i.intents, port, ForceOff)) || Unwanted(i, port))
  {
    hide Closes, Unwanted, Retryable, Desired, Interesting, FreeSlots, Absent, GoneForGood, Ranked, ToSet;
    InToSet(plan.closePorts, port);
    if port in i.active {
      ClosesIs(i, port);
    }
  }
}
