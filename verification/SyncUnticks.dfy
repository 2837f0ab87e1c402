/** src/syncRound.ts: which ticks and unticks each upload of a round carries, conflict after
    conflict. */
module SyncUnticks {
  import opened Collections
  import opened SyncMerge
  import opened SyncRound

  /** The user's untick of an alias is still to be carried out: every account pulled so far held
      it, and it is not ticked as well. */
  predicate Carried(asked: Selection, sofar: seq<Upload>, alias: string) {
    && alias in asked.unticked
    && (forall j | 0 <= j < |sofar| :: alias in Names(sofar[j].pulled))
    && (sofar != [] ==> alias !in asked.checked)
  }

  /** The j-th account pulled ticks the alias: it holds it, and no untick is left. */
  predicate TickedBy(asked: Selection, sofar: seq<Upload>, j: nat, alias: string)
    requires j < |sofar|
  {
    alias in Names(sofar[j].pulled) && !Carried(asked, sofar[..j], alias)
  }

  /** A selection is what the user asked for, as far as the accounts pulled have changed it. */
  ghost predicate Follows(asked: Selection, sofar: seq<Upload>, selection: Selection) {
    && (forall alias :: alias in selection.unticked <==> Carried(asked, sofar, alias))
    && (forall alias :: alias in selection.checked
                   <==> alias in asked.checked || exists j :: 0 <= j < |sofar| && TickedBy(asked, sofar, j, alias))
  }

  ghost predicate AllFollow(asked: Selection, uploads: seq<Upload>) {
    forall k | 0 <= k < |uploads| :: Follows(asked, uploads[..k + 1], uploads[k].selection)
  }

  ghost predicate RoundFollows(asked: Selection, sofar: seq<Upload>, round: Round) {
    match round
    case AwaitPull(_, selection) => Follows(asked, sofar, selection)
    case AwaitPush(_, upload) => Follows(asked, sofar + [upload], upload.selection)
    case Done(_) => true
  }

  lemma CarriedBefore(asked: Selection, sofar: seq<Upload>, j: nat, alias: string)
    requires j <= |sofar| && Carried(asked, sofar, alias)
    ensures Carried(asked, sofar[..j], alias)
  {
  }

  lemma TickedMore(asked: Selection, sofar: seq<Upload>, upload: Upload, j: nat, alias: string)
    requires j < |sofar|
    ensures TickedBy(asked, sofar + [upload], j, alias) <==> TickedBy(asked, sofar, j, alias)
  {
    assert (sofar + [upload])[..j] == sofar[..j];
  }

  lemma ApplyFollows(asked: Selection, sofar: seq<Upload>, selection: Selection, upload: Upload)
    requires Follows(asked, sofar, selection) && upload.selection == Apply(upload.pulled, selection)
    ensures Follows(asked, sofar + [upload], upload.selection)
  {
    var all := sofar + [upload];
    var n := |sofar|;
    assert all[..n] == sofar && all[n] == upload;
    ApplyExact(upload.pulled, selection);
    forall alias
      ensures alias in upload.selection.unticked <==> Carried(asked, all, alias)
      ensures alias in upload.selection.checked
         <==> alias in asked.checked || exists j :: 0 <= j < |all| && TickedBy(asked, all, j, alias)
    {
      OneFollows(asked, sofar, selection, upload, alias);
    }
  }

  lemma OneFollows(asked: Selection, sofar: seq<Upload>, selection: Selection, upload: Upload, alias: string)
    requires Follows(asked, sofar, selection) && upload.selection == Apply(upload.pulled, selection)
    ensures var all := sofar + [upload];
            && (alias in upload.selection.unticked <==> Carried(asked, all, alias))
            && (alias in upload.selection.checked
                <==> alias in asked.checked || exists j :: 0 <= j < |all| && TickedBy(asked, all, j, alias))
  {
    var all := sofar + [upload];
    var n := |sofar|;
    ApplyExact(upload.pulled, selection);
    forall j | 0 <= j < n
      ensures TickedBy(asked, all, j, alias) <==> TickedBy(asked, sofar, j, alias)
      ensures Carried(asked, sofar, alias) ==> !TickedBy(asked, sofar, j, alias)
    {
      TickedMore(asked, sofar, upload, j, alias);
      if Carried(asked, sofar, alias) {
        CarriedBefore(asked, sofar, j, alias);
      }
    }
    assert all[..n] == sofar && all[n] == upload;
    assert TickedBy(asked, all, n, alias) <==> alias in Names(upload.pulled) && !Carried(asked, sofar, alias);
    assert Carried(asked, all, alias)
      <==> Carried(asked, sofar, alias) && alias in Names(upload.pulled) && alias !in asked.checked by {
      assert forall j | 0 <= j < n :: all[j] == sofar[j];
      hide Names;
    }
    hide Apply, TickedBy, Carried;
  }

  lemma BeginFollows(asked: Selection)
    ensures RoundFollows(asked, [], Begin(asked))
  {
    DedupExact(asked.checked);
    DedupExact(asked.unticked);
  }

  lemma PullFollows(asked: Selection, local: seq<HostEntry>, sofar: seq<Upload>, round: Round, reply: PullReply)
    requires round.AwaitPull? && RoundFollows(asked, sofar, round)
    ensures RoundFollows(asked, sofar, OnPull(local, round, reply))
  {
    hide Follows, Apply, Assemble;
    var next := OnPull(local, round, reply);
    if next.AwaitPush? {
      ApplyFollows(asked, sofar, round.selection, next.upload);
    }
  }

  lemma {:induction false} RunFollows(asked: Selection, local: seq<HostEntry>, round: Round, sofar: seq<Upload>,
                                      pull: nat -> PullReply, push: nat -> PushReply)
    requires !round.Done? ==> round.attempt == |sofar| + 1 <= CONFLICT_RETRIES + 1
    requires RoundFollows(asked, sofar, round) && AllFollow(asked, sofar)
    ensures AllFollow(asked, Run(local, round, sofar, pull, push).1)
    decreases if round.Done? then 0 else 2 * (CONFLICT_RETRIES + 2 - round.attempt) - if round.AwaitPush? then 1 else 0
  {
    hide Follows, Apply, Assemble;
    match round
    case Done(_) =>
    case AwaitPull(attempt, _) =>
      PullFollows(asked, local, sofar, round, pull(attempt));
      RunFollows(asked, local, OnPull(local, round, pull(attempt)), sofar, pull, push);
    case AwaitPush(attempt, upload) =>
      var all := sofar + [upload];
      forall k | 0 <= k < |all|
        ensures Follows(asked, all[..k + 1], all[k].selection)
      {
        assert all[..k + 1] == if k < |sofar| then sofar[..k + 1] else all;
      }
      RunFollows(asked, local, OnPush(round, push(attempt)), all, pull, push);
  }

  /** Every upload of a round carries exactly the ticks and unticks asked for, as the accounts
      pulled have changed them: a conflict loses none. */
  lemma CarriesExactly(local: seq<HostEntry>, asked: Selection, pull: nat -> PullReply, push: nat -> PushReply)
    ensures AllFollow(asked, Run(local, Begin(asked), [], pull, push).1)
  {
    BeginFollows(asked);
    RunFollows(asked, local, Begin(asked), [], pull, push);
  }

  lemma NotTicked(asked: Selection, uploads: seq<Upload>, alias: string)
    requires uploads != [] && Follows(asked, uploads, uploads[|uploads| - 1].selection)
    requires alias in Names(uploads[|uploads| - 1].pulled)
    ensures alias !in uploads[|uploads| - 1].selection.checked <==> Carried(asked, uploads, alias)
  {
    var k := |uploads| - 1;
    hide Names;
    assert TickedBy(asked, uploads, k, alias) <==> !Carried(asked, uploads[..k], alias);
    if Carried(asked, uploads, alias) {
      forall j | 0 <= j < |uploads|
        ensures !TickedBy(asked, uploads, j, alias)
      {
        CarriedBefore(asked, uploads, j, alias);
      }
    }
  }

  /** An upload leaves out an alias of the account it replaces exactly if the user unticked it,
      did not tick it, and every account pulled earlier in the round held it too. */
  lemma LeftOutExactly(local: seq<HostEntry>, asked: Selection, pull: nat -> PullReply, push: nat -> PushReply, k: nat, alias: string)
    requires k < |Run(local, Begin(asked), [], pull, push).1|
    requires alias in Names(Run(local, Begin(asked), [], pull, push).1[k].pulled)
    ensures var uploads := Run(local, Begin(asked), [], pull, push).1;
            alias !in Names(uploads[k].hosts)
            <==> alias in asked.unticked && alias !in asked.checked && forall j | 0 <= j < k :: alias in Names(uploads[j].pulled)
  {
    var uploads := Run(local, Begin(asked), [], pull, push).1;
    CarriesExactly(local, asked, pull, push);
    RunSyncRoundSafe(local, asked, pull, push);
    hide Run, Names, Outcome, Follows;
    var all := uploads[..k + 1];
    assert Conservative(local, uploads[k], asked);
    assert all[k] == uploads[k] && Follows(asked, all, uploads[k].selection);
    NotTicked(asked, all, alias);
    assert forall j | 0 <= j < k :: all[j] == uploads[j];
    hide Conservative;
    assert Carried(asked, all, alias)
      <==> alias in asked.unticked && alias !in asked.checked && forall j | 0 <= j < k :: alias in Names(uploads[j].pulled);
  }
}
