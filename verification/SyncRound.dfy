/** src/syncRound.ts: one bounded pull - merge - push round against a versioned slot.

    The code between two awaits is one step, so a round is the state it waits in:
    `OnPull` and `OnPush` are the steps, `RunSyncRound` the source's loop over them. */
module SyncRound {
  import opened Collections
  import opened SyncMerge

  const CONFLICT_RETRIES := 3

  datatype Payload = Unreadable | Readable(hosts: seq<HostEntry>)

  /** What the platform's `pull` may answer, a rejection or a malformed answer included. */
  datatype PullReply = PullRejected | PullMalformed | Absent | Account(version: nat, payload: Payload)

  datatype PushReply = PushRejected | PushMalformed | PushFailed | Conflict(currentVersion: nat) | Accepted(version: nat)

  /** One upload, with the account copy it was assembled from. */
  datatype Upload = Upload(base: Option<nat>, hosts: seq<HostEntry>, pulled: seq<HostEntry>, selection: Selection)

  datatype Stage = PullStage | PushStage

  datatype Result =
    | Synced(version: nat, selection: Selection, hosts: seq<HostEntry>, attempts: nat)
    | InvalidPayload
    | EmptySelection
    | Failed(stage: Stage)
    | ConflictLimit(version: nat, attempts: nat)

  datatype Round =
    | AwaitPull(attempt: nat, selection: Selection)
    | AwaitPush(attempt: nat, upload: Upload)
    | Done(result: Result)

  function Begin(selection: Selection): Round {
    AwaitPull(1, Selection(Dedup(selection.checked), Dedup(selection.unticked)))
  }

  /** The clean read of a pull: the slot's version and hosts, if there was one. */
  function CleanPull(reply: PullReply): Option<(Option<nat>, seq<HostEntry>)> {
    match reply
    case Absent => Some((None, []))
    case Account(version, Readable(hosts)) => Some((Some(version), hosts))
    case _ => None
  }

  function OnPull(local: seq<HostEntry>, round: Round, reply: PullReply): Round
    requires round.AwaitPull?
  {
    match CleanPull(reply)
    case None => Done(if reply.Account? then InvalidPayload else Failed(PullStage))
    case Some((base, remote)) =>
      var selection := Apply(remote, round.selection);
      var hosts := Assemble(local, remote, selection.checked);
      if hosts == [] then Done(EmptySelection)
      else AwaitPush(round.attempt, Upload(base, SerializeAll(hosts), remote, selection))
  }

  /** The unticks a successful upload has not carried out. */
  function Pending(unticked: seq<string>, hosts: seq<HostEntry>): seq<string> {
    Filter(unticked, alias => alias in Names(hosts))
  }

  function OnPush(round: Round, reply: PushReply): Round
    requires round.AwaitPush?
  {
    var Upload(_, hosts, _, selection) := round.upload;
    match reply
    case Accepted(version) =>
      Done(Synced(version, Selection(selection.checked, Pending(selection.unticked, hosts)), hosts, round.attempt))
    case Conflict(current) =>
      if round.attempt > CONFLICT_RETRIES then Done(ConflictLimit(current, round.attempt))
      else AwaitPull(round.attempt + 1, selection)
    case _ => Done(Failed(PushStage))
  }

  /** A whole round: the k-th pull and the k-th push are answered by `pull(k)` and
      `push(k)`; `sofar` is what the round has uploaded already. */
  function Run(local: seq<HostEntry>, round: Round, sofar: seq<Upload>, pull: nat -> PullReply, push: nat -> PushReply)
    : (Result, seq<Upload>)
    requires !round.Done? ==> round.attempt == |sofar| + 1 <= CONFLICT_RETRIES + 1
    decreases if round.Done? then 0 else 2 * (CONFLICT_RETRIES + 2 - round.attempt) - if round.AwaitPush? then 1 else 0
  {
    match round
    case Done(result) => (result, sofar)
    case AwaitPull(attempt, _) => Run(local, OnPull(local, round, pull(attempt)), sofar, pull, push)
    case AwaitPush(attempt, upload) => Run(local, OnPush(round, push(attempt)), sofar + [upload], pull, push)
  }

  method StillPending(unticked: seq<string>, hosts: seq<HostEntry>) returns (pending: seq<string>)
    ensures pending == Pending(unticked, hosts)
  {
    var uploaded := ToSet(Names(hosts));
    pending := [];
    for i := 0 to |unticked|
      invariant pending == Pending(unticked[..i], hosts)
    {
      assert unticked[..i + 1][..i] == unticked[..i];
      if unticked[i] in uploaded {
        pending := pending + [unticked[i]];
      }
    }
    assert unticked[..|unticked|] == unticked;
  }

  /** From a pull's answer to the upload it asks for, or to the round's early end. */
  method Rebase(local: seq<HostEntry>, attempts: nat, selection: Selection, snapshot: PullReply) returns (next: Round)
    ensures next == OnPull(local, AwaitPull(attempts, selection), snapshot)
  {
    if snapshot.PullRejected? || snapshot.PullMalformed? {
      return Done(Failed(PullStage));
    }
    var version: Option<nat> := None;
    var remoteHosts: seq<HostEntry> := [];
    if snapshot.Account? {
      version := Some(snapshot.version);
      if snapshot.payload.Unreadable? {
        return Done(InvalidPayload);
      }
      remoteHosts := snapshot.payload.hosts;
    }
    var selected := ApplyAccountToSelection(remoteHosts, selection);
    var hosts := AssembleSyncSet(local, remoteHosts, selected.checked);
    if |hosts| == 0 {
      return Done(EmptySelection);
    }
    next := AwaitPush(attempts, Upload(version, SerializeAll(hosts), remoteHosts, selected));
  }

  /** The source's loop: `selected` and `unticked` are reassigned on every pull. */
  method RunSyncRound(local: seq<HostEntry>, selection: Selection, pull: nat -> PullReply, push: nat -> PushReply)
    returns (result: Result, uploads: seq<Upload>)
    ensures (result, uploads) == Run(local, Begin(selection), [], pull, push)
  {
    var selected := Unique(selection.checked);
    var unticked := Unique(selection.unticked);
    uploads := [];
    var attempts := 1;
    while true
      invariant attempts == |uploads| + 1 <= CONFLICT_RETRIES + 1
      invariant Run(local, Begin(selection), [], pull, push)
             == Run(local, AwaitPull(attempts, Selection(selected, unticked)), uploads, pull, push)
      decreases CONFLICT_RETRIES + 1 - attempts
    {
      var waiting := Rebase(local, attempts, Selection(selected, unticked), pull(attempts));
      if waiting.Done? {
        return waiting.result, uploads;
      }
      selected, unticked := waiting.upload.selection.checked, waiting.upload.selection.unticked;
      var pushed := push(attempts);
      assert Run(local, waiting, uploads, pull, push)
          == Run(local, OnPush(waiting, pushed), uploads + [waiting.upload], pull, push);
      uploads := uploads + [waiting.upload];
      if pushed.Accepted? {
        var pending := StillPending(unticked, waiting.upload.hosts);
        return Synced(pushed.version, Selection(selected, pending), waiting.upload.hosts, attempts), uploads;
      }
      if !pushed.Conflict? {
        return Failed(PushStage), uploads;
      }
      if attempts > CONFLICT_RETRIES {
        return ConflictLimit(pushed.currentVersion, attempts), uploads;
      }
      attempts := attempts + 1;
    }
  }

  // ----- what one round may do -----

  /** An upload holds every known ticked alias once, and leaves nothing the account holds out
      except by an explicit untick. */
  ghost predicate Conservative(local: seq<HostEntry>, upload: Upload, asked: Selection) {
    && upload.hosts != []
    && NoDuplicates(Names(upload.hosts))
    && (forall alias :: alias in Names(upload.hosts)
                   <==> alias in upload.selection.checked && (alias in Names(local) || alias in Names(upload.pulled)))
    && (forall alias | alias in asked.checked :: alias in upload.selection.checked)
    && forall alias | alias in Names(upload.pulled) && alias !in Names(upload.hosts) ::
         alias in asked.unticked && alias !in asked.checked && alias in upload.selection.unticked
  }

  /** What a waiting round knows of the selection it was started with. */
  ghost predicate RoundInv(local: seq<HostEntry>, round: Round, asked: Selection) {
    match round
    case AwaitPull(attempt, selection) =>
      && 1 <= attempt <= CONFLICT_RETRIES + 1
      && (forall alias | alias in selection.unticked :: alias in asked.unticked)
      && (forall alias | alias in asked.checked :: alias in selection.checked)
    case AwaitPush(attempt, upload) =>
      && 1 <= attempt <= CONFLICT_RETRIES + 1
      && Conservative(local, upload, asked)
      && (forall alias | alias in upload.selection.unticked ::
            alias in asked.unticked && alias in Names(upload.pulled) && alias !in Names(upload.hosts))
    case Done(Synced(_, selection, _, _)) => selection.unticked == []
    case Done(_) => true
  }

  lemma BeginInv(local: seq<HostEntry>, asked: Selection)
    ensures RoundInv(local, Begin(asked), asked)
  {
    DedupExact(asked.checked);
    DedupExact(asked.unticked);
  }

  lemma OnPullInv(local: seq<HostEntry>, round: Round, reply: PullReply, asked: Selection)
    requires round.AwaitPull? && RoundInv(local, round, asked)
    ensures RoundInv(local, OnPull(local, round, reply), asked)
  {
    if CleanPull(reply).Some? {
      var (base, remote) := CleanPull(reply).value;
      var next := Apply(remote, round.selection);
      ApplyExact(remote, round.selection);
      AssembleExact(local, remote, next.checked);
      forall alias | alias in Names(remote)
        ensures alias !in Names(Assemble(local, remote, next.checked)) <==> alias in next.unticked
      {
        RemovedIffUnticked(local, remote, round.selection, alias);
      }
    }
  }

  lemma OnPushInv(local: seq<HostEntry>, round: Round, reply: PushReply, asked: Selection)
    requires round.AwaitPush? && RoundInv(local, round, asked)
    ensures RoundInv(local, OnPush(round, reply), asked)
  {
    if reply.Accepted? {
      var Upload(_, hosts, _, selection) := round.upload;
      FilterExact(selection.unticked, alias => alias in Names(hosts));
    }
  }

  /** The k-th upload is conservative, replaces the version the k-th pull answered, and
      follows a conflict unless it is the first. */
  ghost predicate InTurn(local: seq<HostEntry>, uploads: seq<Upload>, asked: Selection, pull: nat -> PullReply, push: nat -> PushReply) {
    forall k | 0 <= k < |uploads| ::
      && Conservative(local, uploads[k], asked)
      && CleanPull(pull(k + 1)) == Some((uploads[k].base, uploads[k].pulled))
      && (k > 0 ==> push(k).Conflict?)
  }

  ghost predicate Waiting(round: Round, uploads: seq<Upload>, pull: nat -> PullReply, push: nat -> PushReply) {
    !round.Done? ==>
      && round.attempt == |uploads| + 1 <= CONFLICT_RETRIES + 1
      && (uploads != [] ==> push(|uploads|).Conflict?)
      && (round.AwaitPush? ==> CleanPull(pull(round.attempt)) == Some((round.upload.base, round.upload.pulled)))
  }

  /** What the service answered last, and what the result says of it. A synced round keeps the
      ticks of its last upload. */
  ghost predicate Outcome(local: seq<HostEntry>, result: Result, uploads: seq<Upload>, asked: Selection,
                          pull: nat -> PullReply, push: nat -> PushReply) {
    var n := |uploads|;
    match result
    case Synced(version, selection, hosts, attempts) =>
      && n > 0 && push(n) == Accepted(version) && hosts == uploads[n - 1].hosts && attempts == n
      && selection == Selection(uploads[n - 1].selection.checked, [])
    case InvalidPayload => pull(n + 1).Account? && pull(n + 1).payload.Unreadable?
    case EmptySelection => CleanPull(pull(n + 1)).Some? && NothingLeft(local, CleanPull(pull(n + 1)).value.1, asked)
    case Failed(PullStage) => pull(n + 1).PullRejected? || pull(n + 1).PullMalformed?
    case Failed(PushStage) => n > 0 && (push(n).PushRejected? || push(n).PushMalformed? || push(n).PushFailed?)
    case ConflictLimit(version, attempts) => n == CONFLICT_RETRIES + 1 == attempts && push(n) == Conflict(version)
  }

  /** Every account alias is explicitly unticked, and no ticked one is known. */
  ghost predicate NothingLeft(local: seq<HostEntry>, remote: seq<HostEntry>, asked: Selection) {
    && (forall alias | alias in Names(remote) :: alias in asked.unticked && alias !in asked.checked)
    && (forall alias | alias in asked.checked :: alias !in Names(local))
  }

  lemma PullEnds(local: seq<HostEntry>, round: Round, reply: PullReply, asked: Selection)
    requires round.AwaitPull? && RoundInv(local, round, asked) && CleanPull(reply).Some? && OnPull(local, round, reply) == Done(EmptySelection)
    ensures NothingLeft(local, CleanPull(reply).value.1, asked)
  {
    var (base, remote) := CleanPull(reply).value;
    var next := Apply(remote, round.selection);
    ApplyExact(remote, round.selection);
    AssembleExact(local, remote, next.checked);
    forall alias | alias in Names(remote)
      ensures alias in round.selection.unticked && alias !in round.selection.checked
    {
      RemovedIffUnticked(local, remote, round.selection, alias);
    }
  }

  lemma {:induction false} RunInTurn(local: seq<HostEntry>, round: Round, sofar: seq<Upload>, asked: Selection,
                                     pull: nat -> PullReply, push: nat -> PushReply)
    requires RoundInv(local, round, asked) && Waiting(round, sofar, pull, push) && InTurn(local, sofar, asked, pull, push)
    requires |sofar| <= CONFLICT_RETRIES + 1
    requires round.Done? ==> Outcome(local, round.result, sofar, asked, pull, push)
    ensures var (result, uploads) := Run(local, round, sofar, pull, push);
            && |uploads| <= CONFLICT_RETRIES + 1
            && InTurn(local, uploads, asked, pull, push)
            && Outcome(local, result, uploads, asked, pull, push)
    decreases if round.Done? then 0 else 2 * (CONFLICT_RETRIES + 2 - round.attempt) - if round.AwaitPush? then 1 else 0
  {
    match round
    case Done(_) =>
    case AwaitPull(attempt, _) =>
      OnPullInv(local, round, pull(attempt), asked);
      if CleanPull(pull(attempt)).Some? && OnPull(local, round, pull(attempt)).Done? {
        PullEnds(local, round, pull(attempt), asked);
      }
      RunInTurn(local, OnPull(local, round, pull(attempt)), sofar, asked, pull, push);
    case AwaitPush(attempt, upload) =>
      OnPushInv(local, round, push(attempt), asked);
      RunInTurn(local, OnPush(round, push(attempt)), sofar + [upload], asked, pull, push);
  }

  /** A round started from a device's own selection uploads at most four times; every
      upload replaces exactly the version its own pull answered, is never empty, holds every
      known ticked alias and leaves out nothing the account holds but an explicit untick; only
      a conflict leads to another upload; and the result is what the last answer says: a
      `synced` round keeps the ticks of its last upload, and no untick. */
  lemma RunSyncRoundSafe(local: seq<HostEntry>, asked: Selection, pull: nat -> PullReply, push: nat -> PushReply)
    ensures var (result, uploads) := Run(local, Begin(asked), [], pull, push);
            && |uploads| <= CONFLICT_RETRIES + 1
            && InTurn(local, uploads, asked, pull, push)
            && Outcome(local, result, uploads, asked, pull, push)
  {
    BeginInv(local, asked);
    RunInTurn(local, Begin(asked), [], asked, pull, push);
  }
}
