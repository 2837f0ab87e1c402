/** Any number of devices running rounds of src/syncRound.ts against one account slot.

    The service keeps one versioned slot and accepts an upload only on the version it
    holds. Everything else is adversarial: a pull may answer any earlier state of the
    slot, an upload may be served at any later time and any number of times, every
    answer may be lost, and devices interleave step by step. */
module SyncAccount {
  import opened Collections
  import opened SyncMerge
  import opened SyncRound

  datatype Slot = Slot(version: nat, hosts: seq<HostEntry>)

  /** `selection` is what the client persists: it follows every clean pull and every
      synced result. `sent` is the upload the device is waiting for. */
  datatype Device = Device(local: seq<HostEntry>, selection: Selection, round: Round, sent: nat)

  datatype Request = Request(device: nat, upload: Upload, seen: nat, local: seq<HostEntry>)

  /** `history` holds every state of the slot, the current one last. */
  datatype State = State(history: seq<Option<Slot>>, devices: map<nat, Device>, wire: seq<Request>)

  datatype Event =
    | Edit(device: nat, local: seq<HostEntry>)
    | Tick(device: nat, alias: string)
    | Untick(device: nat, alias: string)
    | ForgetUnticks(device: nat)
    | Start(device: nat)
    | Pull(device: nat, moment: nat)
    | PullFails(device: nat, reply: PullReply)
    | Serve(request: nat, version: nat)
    | Answer(device: nat, version: nat)
    | Refuse(device: nat, current: nat)
    | Lose(device: nat)

  const Idle := Done(EmptySelection)

  function Init(): State {
    State([None], map[], [])
  }

  function Current(s: State): Option<Slot> {
    if s.history == [] then None else s.history[|s.history| - 1]
  }

  function Base(slot: Option<Slot>): Option<nat> {
    if slot.None? then None else Some(slot.value.version)
  }

  function Hosts(slot: Option<Slot>): seq<HostEntry> {
    if slot.None? then [] else slot.value.hosts
  }

  function Dev(s: State, d: nat): Device {
    if d in s.devices then s.devices[d] else Device([], Selection([], []), Idle, 0)
  }

  function PutDev(s: State, d: nat, device: Device): State {
    s.(devices := s.devices[d := device])
  }

  predicate Fits(s: State, id: nat, version: nat) {
    && id < |s.wire|
    && s.wire[id].upload.base == Base(Current(s))
    && (Current(s).Some? ==> version > Current(s).value.version)
  }

  /** A device reads a state of the slot: the round moves on, the client persists the
      selection, and an upload goes on the wire. */
  function Pulled(s: State, d: nat, moment: nat): State
    requires moment < |s.history| && Dev(s, d).round.AwaitPull?
  {
    var device, slot := Dev(s, d), s.history[moment];
    var reply := if slot.None? then Absent else Account(slot.value.version, Readable(slot.value.hosts));
    var round := OnPull(device.local, device.round, reply);
    var next := device.(selection := Apply(Hosts(slot), device.round.selection), round := round, sent := |s.wire|);
    if round.AwaitPush? then PutDev(s, d, next).(wire := s.wire + [Request(d, round.upload, moment, device.local)])
    else PutDev(s, d, next)
  }

  function Answered(s: State, d: nat, reply: PushReply): State
    requires Dev(s, d).round.AwaitPush?
  {
    var device := Dev(s, d);
    var round := OnPush(device.round, reply);
    var selection := if round.Done? && round.result.Synced? then round.result.selection else device.selection;
    PutDev(s, d, device.(round := round, selection := selection))
  }

  /** One atomic step; an event that cannot happen changes nothing. */
  function Next(s: State, e: Event): State {
    match e
    case Edit(d, local) =>
      if Dev(s, d).round.Done? then PutDev(s, d, Dev(s, d).(local := local)) else s
    case Tick(d, alias) =>
      var Selection(checked, unticked) := Dev(s, d).selection;
      if Dev(s, d).round.Done?
      then PutDev(s, d, Dev(s, d).(selection := Selection(checked + [alias], Filter(unticked, a => a != alias)))) else s
    case Untick(d, alias) =>
      var Selection(checked, unticked) := Dev(s, d).selection;
      if Dev(s, d).round.Done?
      then PutDev(s, d, Dev(s, d).(selection := Selection(Filter(checked, a => a != alias), unticked + [alias]))) else s
    case ForgetUnticks(d) =>
      if Dev(s, d).round.Done?
      then PutDev(s, d, Dev(s, d).(selection := Selection(Dev(s, d).selection.checked, []))) else s
    case Start(d) =>
      if Dev(s, d).round.Done? then PutDev(s, d, Dev(s, d).(round := Begin(Dev(s, d).selection))) else s
    case Pull(d, moment) =>
      if Dev(s, d).round.AwaitPull? && moment < |s.history| then Pulled(s, d, moment) else s
    case PullFails(d, reply) =>
      if Dev(s, d).round.AwaitPull? && CleanPull(reply).None?
      then PutDev(s, d, Dev(s, d).(round := OnPull(Dev(s, d).local, Dev(s, d).round, reply))) else s
    case Serve(id, version) =>
      if Fits(s, id, version) then s.(history := s.history + [Some(Slot(version, s.wire[id].upload.hosts))]) else s
    case Answer(d, version) =>
      if Dev(s, d).round.AwaitPush? then Answered(s, d, Accepted(version)) else s
    case Refuse(d, current) =>
      if Dev(s, d).round.AwaitPush? then Answered(s, d, Conflict(current)) else s
    case Lose(d) =>
      if Dev(s, d).round.AwaitPush? then Answered(s, d, PushRejected) else s
  }

  // ----- the accounts kept for one device and one alias -----

  datatype Watch = Watch(device: nat, alias: string)

  /** For the watched pair: how often the user unticked the alias on the device, which of
      the device's uploads took it out of the account, and which uploads meant to take it
      out ended with an acceptance the device saw, or with an outcome it did not see. */
  datatype Tally = Tally(unticks: nat, removed: set<nat>, seen: set<nat>, unseen: set<nat>)

  predicate Drops(s: State, w: Watch, id: nat) {
    id < |s.wire| && s.wire[id].device == w.device && w.alias in s.wire[id].upload.selection.unticked
  }

  /** The slot has moved past the version the upload replaces: it can never be accepted again. */
  predicate Settled(s: State, id: nat) {
    id < |s.wire| && s.wire[id].upload.base != Base(Current(s))
  }

  function Score(s: State, t: Tally, w: Watch, e: Event): Tally {
    match e
    case Untick(d, alias) =>
      if Dev(s, d).round.Done? && d == w.device && alias == w.alias then t.(unticks := t.unticks + 1) else t
    case Serve(id, version) =>
      if Fits(s, id, version) && s.wire[id].device == w.device
         && w.alias in Names(Hosts(Current(s))) && w.alias !in Names(s.wire[id].upload.hosts)
      then t.(removed := t.removed + {id}) else t
    case Answer(d, _) =>
      if d == w.device && Dev(s, d).round.AwaitPush? && Drops(s, w, Dev(s, d).sent)
      then t.(seen := t.seen + {Dev(s, d).sent}) else t
    case Refuse(d, _) =>
      if d == w.device && Dev(s, d).round.AwaitPush? && Drops(s, w, Dev(s, d).sent)
         && !(Settled(s, Dev(s, d).sent) && Dev(s, d).sent !in t.removed)
      then t.(unseen := t.unseen + {Dev(s, d).sent}) else t
    case Lose(d) =>
      if d == w.device && Dev(s, d).round.AwaitPush? && Drops(s, w, Dev(s, d).sent)
      then t.(unseen := t.unseen + {Dev(s, d).sent}) else t
    case _ => t
  }

  function Exec(events: seq<Event>): State {
    if events == [] then Init() else Next(Exec(events[..|events| - 1]), events[|events| - 1])
  }

  function ExecTally(events: seq<Event>, w: Watch): Tally {
    if events == [] then Tally(0, {}, {}, {})
    else
      var before := events[..|events| - 1];
      Score(Exec(before), ExecTally(before, w), w, events[|events| - 1])
  }

  // ----- the invariant -----

  function Rank(slot: Option<Slot>): nat {
    if slot.None? then 0 else slot.value.version + 1
  }

  ghost predicate HistoryInv(s: State) {
    && s.history != []
    && (forall i, j | 0 <= i < j < |s.history| :: Rank(s.history[i]) < Rank(s.history[j]))
  }

  /** An upload on the wire was assembled from a state the slot once had, and leaves out
      exactly what its device held as unticked. */
  ghost predicate RequestInv(s: State, r: Request) {
    && r.seen < |s.history|
    && r.upload.base == Base(s.history[r.seen])
    && r.upload.pulled == Hosts(s.history[r.seen])
    && r.upload.hosts != []
    && (forall alias | alias in Names(r.upload.pulled) && alias !in Names(r.upload.hosts) :: alias in r.upload.selection.unticked)
  }

  ghost predicate DeviceInv(wire: seq<Request>, d: nat, device: Device) {
    match device.round
    case AwaitPull(attempt, selection) =>
      && 1 <= attempt <= CONFLICT_RETRIES + 1
      && forall alias | alias in selection.unticked :: alias in device.selection.unticked
    case AwaitPush(attempt, upload) =>
      && 1 <= attempt <= CONFLICT_RETRIES + 1
      && device.sent < |wire| && wire[device.sent].device == d && wire[device.sent].upload == upload
      && device.selection == upload.selection
      && (forall alias | alias in upload.selection.unticked :: alias !in Names(upload.hosts))
    case Done(_) => true
  }

  ghost predicate Inv(s: State) {
    && HistoryInv(s)
    && (forall id | 0 <= id < |s.wire| :: RequestInv(s, s.wire[id]))
    && (forall d | d in s.devices :: DeviceInv(s.wire, d, s.devices[d]))
  }

  lemma PutDevInv(s: State, d: nat, device: Device)
    requires Inv(s) && DeviceInv(s.wire, d, device)
    ensures Inv(PutDev(s, d, device))
  {
    var after := PutDev(s, d, device);
    assert forall id | 0 <= id < |s.wire| :: RequestInv(s, s.wire[id]) && RequestInv(after, s.wire[id]);
  }

  lemma PulledInv(s: State, d: nat, moment: nat)
    requires Inv(s) && moment < |s.history| && Dev(s, d).round.AwaitPull?
    ensures Inv(Pulled(s, d, moment))
    ensures forall alias ::
              alias in Dev(Pulled(s, d, moment), d).selection.unticked ==> alias in Dev(s, d).selection.unticked
  {
    var device, slot, after := Dev(s, d), s.history[moment], Pulled(s, d, moment);
    var reply := if slot.None? then Absent else Account(slot.value.version, Readable(slot.value.hosts));
    PulledRound(device.local, device.round, reply, Hosts(slot));
    ApplyExact(Hosts(slot), device.round.selection);
    var round := OnPull(device.local, device.round, reply);
    if round.AwaitPush? {
      var request := Request(d, round.upload, moment, device.local);
      assert after.wire == s.wire + [request];
      assert RequestInv(after, request);
      assert forall id | 0 <= id < |s.wire| :: RequestInv(s, s.wire[id]) && RequestInv(after, s.wire[id]);
      assert DeviceInv(after.wire, d, after.devices[d]);
      forall other | other in after.devices && other != d
        ensures DeviceInv(after.wire, other, after.devices[other])
      {
        assert DeviceInv(s.wire, other, s.devices[other]);
      }
    } else {
      PutDevInv(s, d, after.devices[d]);
    }
  }

  /** The upload a clean pull leads to leaves out exactly the unticked account aliases. */
  lemma PulledRound(local: seq<HostEntry>, round: Round, reply: PullReply, remote: seq<HostEntry>)
    requires round.AwaitPull? && CleanPull(reply).Some? && CleanPull(reply).value.1 == remote
    ensures var next := OnPull(local, round, reply);
            next.AwaitPush? ==>
              && next.upload.hosts != []
              && next.upload.pulled == remote
              && next.upload.selection == Apply(remote, round.selection)
              && (forall alias | alias in Names(remote) && alias !in Names(next.upload.hosts) ::
                    alias in next.upload.selection.unticked)
              && (forall alias | alias in next.upload.selection.unticked :: alias !in Names(next.upload.hosts))
  {
    var selection := Apply(remote, round.selection);
    ApplyExact(remote, round.selection);
    forall alias | alias in Names(remote)
      ensures alias !in Names(Assemble(local, remote, selection.checked)) <==> alias in selection.unticked
    {
      RemovedIffUnticked(local, remote, round.selection, alias);
    }
  }

  lemma AnsweredInv(s: State, d: nat, reply: PushReply)
    requires Inv(s) && Dev(s, d).round.AwaitPush?
    ensures Inv(Answered(s, d, reply))
    ensures forall alias ::
              alias in Dev(Answered(s, d, reply), d).selection.unticked ==> alias in Dev(s, d).selection.unticked
    ensures reply.Accepted? ==> Dev(Answered(s, d, reply), d).selection.unticked == []
  {
    var device := Dev(s, d);
    assert DeviceInv(s.wire, d, device);
    if reply.Accepted? {
      FilterExact(device.selection.unticked, alias => alias in Names(device.round.upload.hosts));
      assert Pending(device.selection.unticked, device.round.upload.hosts) == [];
    }
    PutDevInv(s, d, Dev(Answered(s, d, reply), d));
  }

  lemma NextInv(s: State, e: Event)
    requires Inv(s)
    ensures Inv(Next(s, e))
  {
    match e
    case Pull(d, moment) =>
      if Dev(s, d).round.AwaitPull? && moment < |s.history| { PulledInv(s, d, moment); }
    case Serve(id, version) =>
      if Fits(s, id, version) { }
    case Answer(d, version) =>
      if Dev(s, d).round.AwaitPush? { AnsweredInv(s, d, Accepted(version)); }
    case Refuse(d, current) =>
      if Dev(s, d).round.AwaitPush? { AnsweredInv(s, d, Conflict(current)); }
    case Lose(d) =>
      if Dev(s, d).round.AwaitPush? { AnsweredInv(s, d, PushRejected); }
    case Start(d) =>
      DedupExact(Dev(s, d).selection.unticked);
      if Next(s, e) != s { PutDevInv(s, d, Dev(Next(s, e), d)); }
    case _ =>
      if Next(s, e) != s { PutDevInv(s, e.device, Dev(Next(s, e), e.device)); }
  }

  // ----- no lost host -----

  ghost predicate InFlight(s: State, w: Watch, id: nat) {
    Dev(s, w.device).round.AwaitPush? && Dev(s, w.device).sent == id
  }

  ghost predicate PendingUntick(s: State, w: Watch) {
    w.alias in Dev(s, w.device).selection.unticked
  }

  /** Every upload that took the alias out is accounted for, and every acceptance the
      device saw has used up one untick. */
  ghost predicate TallyInv(s: State, t: Tally, w: Watch) {
    && (forall id | id in t.removed :: Drops(s, w, id) && s.wire[id].seen < |s.history| - 1)
    && (forall id | id in t.seen :: id < |s.wire|)
    && (forall id: nat | Drops(s, w, id) && id !in t.seen && id !in t.unseen ::
          InFlight(s, w, id) || (s.wire[id].seen < |s.history| - 1 && id !in t.removed))
    && |t.seen| + (if PendingUntick(s, w) then 1 else 0) <= t.unticks
  }

  lemma SettledExact(s: State, id: nat)
    requires Inv(s) && id < |s.wire|
    ensures Settled(s, id) <==> s.wire[id].seen < |s.history| - 1
  {
    assert RequestInv(s, s.wire[id]);
  }

  /** A device that is not waiting for a push changes, and stays not waiting for one. */
  lemma QuietTally(s: State, t: Tally, after: Tally, w: Watch, d: nat, device: Device)
    requires TallyInv(s, t, w) && !Dev(s, d).round.AwaitPush? && !device.round.AwaitPush?
    requires after == t.(unticks := after.unticks) && t.unticks <= after.unticks
    requires d == w.device && w.alias in device.selection.unticked && !PendingUntick(s, w) ==> t.unticks < after.unticks
    ensures TallyInv(PutDev(s, d, device), after, w)
  {
    var next := PutDev(s, d, device);
    assert forall id: nat :: InFlight(next, w, id) <==> InFlight(s, w, id);
    assert forall id: nat :: Drops(next, w, id) <==> Drops(s, w, id);
  }

  lemma UserTally(s: State, t: Tally, w: Watch, e: Event)
    requires TallyInv(s, t, w)
    requires e.Edit? || e.Tick? || e.Untick? || e.ForgetUnticks? || e.Start? || e.PullFails?
    ensures TallyInv(Next(s, e), Score(s, t, w, e), w)
  {
    var selection := Dev(s, e.device).selection;
    if e.Tick? {
      FilterMembers(selection.unticked, a => a != e.alias);
    }
    if Next(s, e) != s {
      QuietTally(s, t, Score(s, t, w, e), w, e.device, Dev(Next(s, e), e.device));
    }
  }

  lemma PullTally(s: State, t: Tally, w: Watch, d: nat, moment: nat)
    requires Inv(s) && TallyInv(s, t, w)
    requires moment < |s.history| && Dev(s, d).round.AwaitPull?
    ensures TallyInv(Pulled(s, d, moment), t, w)
  {
    hide OnPull, Apply, RequestInv;
    PulledInv(s, d, moment);
    var after := Pulled(s, d, moment);
    forall id: nat | Drops(after, w, id) && id !in t.seen && id !in t.unseen
      ensures InFlight(after, w, id) || (after.wire[id].seen < |after.history| - 1 && id !in t.removed)
    {
      if id < |s.wire| {
        assert Drops(s, w, id);
      }
    }
  }

  lemma ServeTally(s: State, t: Tally, w: Watch, id: nat, version: nat)
    requires Inv(s) && TallyInv(s, t, w) && Fits(s, id, version)
    ensures TallyInv(Next(s, Serve(id, version)), Score(s, t, w, Serve(id, version)), w)
  {
    SettledExact(s, id);
    assert RequestInv(s, s.wire[id]);
    assert s.history[s.wire[id].seen] == Current(s);
  }

  function Reply(e: Event): PushReply
    requires e.Answer? || e.Refuse? || e.Lose?
  {
    match e
    case Answer(_, version) => Accepted(version)
    case Refuse(_, current) => Conflict(current)
    case Lose(_) => PushRejected
  }

  lemma AnswerTally(s: State, t: Tally, w: Watch, e: Event)
    requires Inv(s) && TallyInv(s, t, w)
    requires (e.Answer? || e.Refuse? || e.Lose?) && Dev(s, e.device).round.AwaitPush?
    ensures TallyInv(Next(s, e), Score(s, t, w, e), w)
  {
    hide OnPush, Apply, RequestInv;
    AnsweredInv(s, e.device, Reply(e));
    assert DeviceInv(s.wire, e.device, Dev(s, e.device));
    var next, after, sent := Next(s, e), Score(s, t, w, e), Dev(s, e.device).sent;
    SettledExact(s, sent);
    assert next.wire == s.wire && next.history == s.history;
    assert Drops(s, w, sent) && e.device == w.device ==> PendingUntick(s, w);
    assert |after.seen| + (if PendingUntick(next, w) then 1 else 0) <= after.unticks;
    forall id: nat | Drops(next, w, id) && id !in after.seen && id !in after.unseen
      ensures InFlight(next, w, id) || (next.wire[id].seen < |next.history| - 1 && id !in after.removed)
    {
      assert Drops(s, w, id);
    }
  }

  lemma NextTally(s: State, t: Tally, w: Watch, e: Event)
    requires Inv(s) && TallyInv(s, t, w)
    ensures TallyInv(Next(s, e), Score(s, t, w, e), w)
  {
    match e
    case Pull(d, moment) =>
      if Dev(s, d).round.AwaitPull? && moment < |s.history| { PullTally(s, t, w, d, moment); }
    case Serve(id, version) =>
      if Fits(s, id, version) { ServeTally(s, t, w, id, version); }
    case Answer(d, _) =>
      if Dev(s, d).round.AwaitPush? { AnswerTally(s, t, w, e); }
    case Refuse(d, _) =>
      if Dev(s, d).round.AwaitPush? { AnswerTally(s, t, w, e); }
    case Lose(d) =>
      if Dev(s, d).round.AwaitPush? { AnswerTally(s, t, w, e); }
    case _ => UserTally(s, t, w, e);
  }

  lemma {:induction false} ExecInv(events: seq<Event>, w: Watch)
    ensures Inv(Exec(events)) && TallyInv(Exec(events), ExecTally(events, w), w)
  {
    if events != [] {
      var before := events[..|events| - 1];
      ExecInv(before, w);
      NextInv(Exec(before), events[|events| - 1]);
      NextTally(Exec(before), ExecTally(before, w), w, events[|events| - 1]);
    }
  }

  /** One untick takes a host out of the account at most once: over every run, a device's
      uploads have taken an alias out no more often than its user unticked it there, plus
      once for each such upload whose acceptance the device never saw. */
  lemma UntickIsOneShot(events: seq<Event>, w: Watch)
    ensures var t := ExecTally(events, w);
            |t.removed| <= t.unticks + |t.unseen|
  {
    ExecInv(events, w);
    var s, t := Exec(events), ExecTally(events, w);
    var sent := Dev(s, w.device).sent;
    if InFlight(s, w, sent) && Drops(s, w, sent) {
      assert DeviceInv(s.wire, w.device, Dev(s, w.device));
      SubsetSize(t.removed, t.seen + t.unseen + {sent});
    } else {
      SubsetSize(t.removed, t.seen + t.unseen);
    }
  }

  lemma SubsetSize(a: set<nat>, b: set<nat>)
    requires a <= b
    ensures |a| <= |b|
  {
    if a != {} {
      var x :| x in a;
      SubsetSize(a - {x}, b - {x});
    }
  }

  /** Only an accepted upload changes the slot, and it replaces the state it was assembled from. */
  lemma OnlyServeWrites(s: State, e: Event)
    requires Inv(s) && Current(Next(s, e)) != Current(s)
    ensures e.Serve? && Fits(s, e.request, e.version)
    ensures s.wire[e.request].upload.pulled == Hosts(Current(s))
  {
    assert Next(s, e).history != s.history;
    assert RequestInv(s, s.wire[e.request]);
    SettledExact(s, e.request);
  }

  /** No lost host: in every run, a step that takes an alias out of the account is the
      service accepting an upload of a device that held the alias as unticked, whose user
      did untick it there, and that was assembled from the very state it replaces. */
  lemma LeavesOnlyByUntick(events: seq<Event>, e: Event, alias: string)
    requires alias in Names(Hosts(Current(Exec(events))))
    requires alias !in Names(Hosts(Current(Next(Exec(events), e))))
    ensures e.Serve? && e.request < |Exec(events).wire|
    ensures var r := Exec(events).wire[e.request];
            && alias in r.upload.selection.unticked
            && r.upload.pulled == Hosts(Current(Exec(events)))
            && ExecTally(events, Watch(r.device, alias)).unticks >= 1
  {
    var s := Exec(events);
    ExecInv(events, Watch(0, alias));
    OnlyServeWrites(s, e);
    assert RequestInv(s, s.wire[e.request]);
    UntickedBefore(events, Watch(s.wire[e.request].device, alias), e.request);
  }

  /** An upload that leaves the watched alias out comes after an untick of it. */
  lemma {:induction false} UntickedBefore(events: seq<Event>, w: Watch, id: nat)
    requires Drops(Exec(events), w, id)
    ensures ExecTally(events, w).unticks >= 1
  {
    hide OnPull, OnPush, Apply, TallyInv;
    if events != [] {
      var before, e := events[..|events| - 1], events[|events| - 1];
      var s := Exec(before);
      if Drops(s, w, id) {
        UntickedBefore(before, w, id);
      } else {
        ExecInv(before, w);
        assert e.Pull?;
        PulledInv(s, e.device, e.moment);
        assert PendingUntick(s, w);
      }
    }
  }

  function Assembled(r: Request): seq<HostEntry> {
    SerializeAll(Assemble(r.local, r.upload.pulled, r.upload.selection.checked))
  }

  ghost predicate ContentInv(s: State) {
    && (forall i | 0 <= i < |s.history| :: Wire(Hosts(s.history[i])))
    && (forall id | 0 <= id < |s.wire| :: s.wire[id].upload.hosts == Assembled(s.wire[id]))
  }

  lemma NextContent(s: State, e: Event)
    requires ContentInv(s)
    ensures ContentInv(Next(s, e))
  {
    hide OnPush, Begin, Filter;
    if e.Serve? && Fits(s, e.request, e.version) {
      var r := s.wire[e.request];
    }
  }

  lemma {:induction false} ExecContent(events: seq<Event>)
    ensures ContentInv(Exec(events))
  {
    hide Next;
    if events != [] {
      var before := events[..|events| - 1];
      ExecContent(before);
      NextContent(Exec(before), events[|events| - 1]);
    }
  }

  /** No lost field: while an alias stays in the account, an accepted upload keeps every
      field the account held for it, and changes one only to a value the uploading device
      stated in its own entry. */
  lemma FieldsStay(events: seq<Event>, id: nat, version: nat, alias: string, key: string)
    requires Fits(Exec(events), id, version)
    requires alias in Names(Exec(events).wire[id].upload.hosts)
    requires var held := LastNamed(Hosts(Current(Exec(events))), alias); held.Some? && key in held.value.fields
    ensures var held := LastNamed(Hosts(Current(Exec(events))), alias).value;
            var now := LastNamed(Hosts(Current(Next(Exec(events), Serve(id, version)))), alias);
            var mine := LastNamed(Exec(events).wire[id].local, alias);
            && now.Some? && key in now.value.fields
            && (now.value.fields[key] == held.fields[key]
                || (mine.Some? && key in Explicit(mine.value) && now.value.fields[key] == mine.value.fields[key]))
  {
    var s := Exec(events);
    ExecInv(events, Watch(0, alias));
    OnlyServeWrites(s, Serve(id, version));
    ExecContent(events);
    AssembledKeeps(s.wire[id], alias, key);
  }

  lemma AssembledKeeps(r: Request, alias: string, key: string)
    requires alias in Names(Assembled(r)) && Wire(r.upload.pulled)
    requires var held := LastNamed(r.upload.pulled, alias); held.Some? && key in held.value.fields
    ensures var held, now, mine := LastNamed(r.upload.pulled, alias), LastNamed(Assembled(r), alias), LastNamed(r.local, alias);
            && now.Some? && key in now.value.fields
            && (now.value.fields[key] == held.value.fields[key]
                || (mine.Some? && key in Explicit(mine.value) && now.value.fields[key] == mine.value.fields[key]))
  {
    var checked := r.upload.selection.checked;
    SerializeLookup(Assemble(r.local, r.upload.pulled, checked), alias);
    AssembleLookup(r.local, r.upload.pulled, checked, alias);
    FieldsSurvive(r.local, r.upload.pulled, checked, alias, key);
    var held := LastNamed(r.upload.pulled, alias).value;
    assert held in r.upload.pulled;
    assert key in Explicit(held);
  }
}
