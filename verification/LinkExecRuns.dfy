/** What holds of exec requests over every run of src/linkCapability.ts. */
module LinkExecRuns {
  import opened Collections
  import opened LinkExec

  // ----- channel numbers -----

  /** A request that is started and not yet answered. */
  predicate IsOpen(s: Link, id: nat) {
    id in s.execs && id !in s.outcomes
  }

  /** The number is no channel of an open request other than `me`. */
  ghost predicate FreeFor(s: Link, channel: nat, me: nat) {
    forall id | IsOpen(s, id) && id != me :: channel !in ChannelsOf(s, id)
  }

  /** A frame that names a channel for the stderr of an open request. */
  predicate Names(s: Link, e: Event) {
    && e.OpenedFrame? && e.ok && e.err.Some? && e.channel in s.opens
    && IsOpen(s, e.channel) && s.execs[e.channel].err.None?
  }

  /** The number the client gives to a new request, and the number the host names, are no
      channel of another open request. */
  ghost predicate NoClash(s: Link, e: Event) {
    && (e.Begin? && s.connected ==> FreeFor(s, s.nextChannel, s.nextChannel))
    && (Names(s, e) ==> FreeFor(s, e.err.value, e.channel))
  }

  ghost predicate NoClashAt(events: seq<Event>, k: nat)
    requires k < |events|
  {
    NoClash(Run(events[..k]), events[k])
  }

  ghost predicate NoClashIn(events: seq<Event>) {
    forall k: nat | k < |events| :: NoClashAt(events, k)
  }

  // ----- the invariant -----

  /** An unanswered request is found under each of its channels. */
  ghost predicate Reachable(s: Link, id: nat)
    requires id in s.execs
  {
    forall c | c in ChannelsOf(s, id) :: c in s.pending && s.pending[c] == id
  }

  ghost predicate AllReachable(s: Link) {
    forall id | IsOpen(s, id) :: Reachable(s, id)
  }

  /** The map holds nothing else. */
  ghost predicate Exact(s: Link) {
    forall c | c in s.pending :: IsOpen(s, s.pending[c]) && c in ChannelsOf(s, s.pending[c])
  }

  /** Main channels are the client's numbers. */
  ghost predicate Numbered(s: Link) {
    && s.nextChannel > 0
    && (forall id | id in s.execs :: 0 < id < s.nextChannel)
    && (forall id | id in s.opens :: 0 < id < s.nextChannel)
  }

  ghost predicate Answered(s: Link) {
    && (forall id | id in s.outcomes :: id in s.execs)
    && (forall id | id in s.outcomes && s.outcomes[id].Resolved? ::
          && s.outcomes[id].stdout == LinkPty.Concat(s.execs[id].stdout)
          && s.outcomes[id].stderr == LinkPty.Concat(s.execs[id].stderr)
          && (s.outcomes[id].timedOut ==> s.execs[id].timed && s.outcomes[id].code == None))
  }

  ghost predicate Inv(s: Link) {
    AllReachable(s) && Exact(s) && Numbered(s) && Answered(s)
  }

  /** Once the connection is down every request has its answer. */
  ghost predicate DownIsAnswered(s: Link) {
    !s.connected ==> forall id | id in s.execs :: id in s.outcomes
  }

  predicate GoodOutcome(s: Link, id: nat, outcome: Outcome) {
    id in s.execs && outcome.Resolved? ==>
      && outcome.stdout == LinkPty.Concat(s.execs[id].stdout) && outcome.stderr == LinkPty.Concat(s.execs[id].stderr)
      && (outcome.timedOut ==> s.execs[id].timed && outcome.code == None)
  }

  lemma SettleReaches(s: Link, id: nat, outcome: Outcome)
    requires AllReachable(s) && Exact(s)
    ensures AllReachable(Settle(s, id, outcome)) && Exact(Settle(s, id, outcome))
  {
    if IsOpen(s, id) {
      var t := Settle(s, id, outcome);
      assert Reachable(s, id);
      forall i | IsOpen(t, i)
        ensures Reachable(t, i)
      {
        assert Reachable(s, i);
      }
    }
  }

  lemma SettleInv(s: Link, id: nat, outcome: Outcome)
    requires Inv(s) && GoodOutcome(s, id, outcome)
    ensures Inv(Settle(s, id, outcome))
  {
    SettleReaches(s, id, outcome);
    hide AllReachable, Exact, ChannelsOf;
  }

  lemma {:induction false} RejectAllInv(s: Link, ids: set<nat>)
    requires Inv(s)
    ensures Inv(RejectAll(s, ids))
    decreases |ids|
  {
    hide Inv, RejectAll;
    if |ids| == 0 {
      RejectNone(s);
    } else {
      var id :| id in ids;
      RejectAllInv(s, ids - {id});
      assert ids - {id} + {id} == ids;
      RejectOne(s, ids - {id}, id);
      SettleInv(RejectAll(s, ids - {id}), id, Rejected);
    }
  }

  lemma StartReaches(s: Link, timed: bool)
    requires AllReachable(s) && Exact(s) && Numbered(s) && Answered(s) && s.connected
    ensures AllReachable(Start(s, timed)) <==> FreeFor(s, s.nextChannel, s.nextChannel)
    ensures AllReachable(Start(s, timed)) ==> Exact(Start(s, timed))
  {
    var t, given := Start(s, timed), s.nextChannel;
    assert Reachable(t, given);
    forall i | IsOpen(s, i)
      ensures IsOpen(t, i) && ChannelsOf(t, i) == ChannelsOf(s, i)
      ensures Reachable(t, i) <==> given !in ChannelsOf(s, i)
    {
      assert Reachable(s, i);
    }
    assert forall i | IsOpen(t, i) && i != given :: IsOpen(s, i);
    assert IsOpen(t, given);
  }

  lemma StartAnswered(s: Link, timed: bool)
    requires Answered(s) && Numbered(s)
    ensures Answered(Start(s, timed)) && Numbered(Start(s, timed))
  {
    assert s.nextChannel !in s.execs;
  }

  lemma StartInv(s: Link, timed: bool)
    requires Inv(s) && NoClash(s, Begin(timed))
    ensures Inv(Start(s, timed))
  {
    hide AllReachable, Exact, Numbered, Answered;
    if s.connected {
      StartReaches(s, timed);
      StartAnswered(s, timed);
    }
  }

  lemma NameErrReaches(s: Link, channel: nat, err: nat)
    requires AllReachable(s) && Exact(s) && IsOpen(s, channel) && s.execs[channel].err.None?
    ensures AllReachable(NameErr(s, channel, err)) <==> FreeFor(s, err, channel)
    ensures AllReachable(NameErr(s, channel, err)) ==> Exact(NameErr(s, channel, err))
  {
    var t := NameErr(s, channel, err);
    assert Reachable(s, channel) && s.pending[channel] == channel;
    assert Reachable(t, channel);
    forall i | IsOpen(s, i) && i != channel
      ensures IsOpen(t, i) && ChannelsOf(t, i) == ChannelsOf(s, i)
      ensures Reachable(t, i) <==> err !in ChannelsOf(s, i)
    {
      assert Reachable(s, i);
    }
    assert forall i | IsOpen(t, i) :: IsOpen(s, i);
  }

  /** Any other naming is without effect. */
  lemma NameErrIdle(s: Link, channel: nat, err: nat)
    requires Exact(s) && AllReachable(s) && !(IsOpen(s, channel) && s.execs[channel].err.None?)
    ensures NameErr(s, channel, err) == s
  {
    if channel in s.pending {
      assert channel in ChannelsOf(s, s.pending[channel]);
    }
  }

  lemma NameErrAnswered(s: Link, channel: nat, err: nat)
    requires Answered(s) && Numbered(s)
    ensures Answered(NameErr(s, channel, err)) && Numbered(NameErr(s, channel, err))
  {
  }

  lemma NameErrInv(s: Link, channel: nat, err: nat)
    requires Inv(s) && (IsOpen(s, channel) && s.execs[channel].err.None? ==> FreeFor(s, err, channel))
    ensures Inv(NameErr(s, channel, err))
  {
    hide AllReachable, Exact, Numbered, Answered, FreeFor, NameErr;
    NameErrAnswered(s, channel, err);
    if IsOpen(s, channel) && s.execs[channel].err.None? {
      NameErrReaches(s, channel, err);
    } else {
      NameErrIdle(s, channel, err);
    }
  }

  /** The same requests, channels and answers. */
  predicate SameChannels(s: Link, t: Link) {
    && t.pending == s.pending && t.outcomes.Keys == s.outcomes.Keys && t.execs.Keys == s.execs.Keys
    && forall id | id in s.execs :: t.execs[id].err == s.execs[id].err
  }

  lemma SameReaches(s: Link, t: Link)
    requires SameChannels(s, t) && AllReachable(s) && Exact(s)
    ensures AllReachable(t) && Exact(t)
  {
    forall i | IsOpen(t, i)
      ensures Reachable(t, i)
    {
      assert IsOpen(s, i) && Reachable(s, i);
    }
  }

  /** What is outside the map of requests may change. */
  lemma AsideInv(s: Link, t: Link)
    requires Inv(s) && t.execs == s.execs && t.pending == s.pending && t.outcomes == s.outcomes && t.nextChannel >= s.nextChannel
    requires forall id | id in t.opens :: 0 < id < t.nextChannel
    ensures Inv(t)
  {
    SameReaches(s, t);
    hide AllReachable, Exact;
  }

  lemma DataAnswered(s: Link, channel: nat, payload: Bytes)
    requires Answered(s) && Exact(s)
    ensures Answered(Data(s, channel, payload)) && SameChannels(s, Data(s, channel, payload))
  {
    hide ChannelsOf, LinkPty.Concat;
  }

  lemma DataInv(s: Link, channel: nat, payload: Bytes)
    requires Inv(s)
    ensures Inv(Data(s, channel, payload))
  {
    DataAnswered(s, channel, payload);
    SameReaches(s, Data(s, channel, payload));
    hide AllReachable, Exact, Answered, SameChannels;
  }

  lemma EndInv(s: Link)
    requires Inv(s)
    ensures Inv(End(s)) && DownIsAnswered(End(s))
  {
    var down := s.(connected := false);
    AsideInv(s, down);
    var t := RejectAll(down, s.pending.Values);
    RejectAllInv(down, s.pending.Values);
    RejectAllInv(t, t.opens);
    AsideInv(RejectAll(t, t.opens), End(s));
    forall id | id in s.execs
      ensures id in t.outcomes
    {
      if id !in s.outcomes {
        assert Reachable(s, id) && s.pending[id] == id;
      }
    }
    hide Inv;
  }

  lemma ResolveInv(s: Link, id: nat, code: Option<int>, timedOut: bool)
    requires Inv(s) && (timedOut ==> code.None? && id in s.execs && s.execs[id].timed)
    ensures Inv(Resolve(s, id, code, timedOut)) && (DownIsAnswered(s) ==> DownIsAnswered(Resolve(s, id, code, timedOut)))
  {
    hide Inv;
    if id in s.execs {
      SettleInv(s, id, Resolved(code, LinkPty.Concat(s.execs[id].stdout), LinkPty.Concat(s.execs[id].stderr), timedOut));
    }
  }

  lemma NextInv(s: Link, e: Event)
    requires Inv(s) && DownIsAnswered(s) && NoClash(s, e)
    ensures Inv(Next(s, e)) && DownIsAnswered(Next(s, e))
  {
    hide Inv;
    match e
    case Begin(timed) => StartInv(s, timed);
    case BeginPty => PtyInv(s);
    case OpenedFrame(channel, ok, err) => OpenedInv(s, channel, ok, err);
    case OpenDeadline(channel) => OpenExpiresInv(s, channel);
    case DataFrame(channel, payload) => DataInv(s, channel, payload);
    case ExitFrame(channel, code) => if channel in s.pending { ResolveInv(s, s.pending[channel], code, false); }
    case ErrorFrame(channel) => if channel in s.pending { SettleInv(s, s.pending[channel], Rejected); }
    case Deadline(id) => if id in s.execs && s.execs[id].timed { ResolveInv(s, id, None, true); }
    case Lost => if s.connected { EndInv(s); }
    case Closed => EndInv(s);
  }

  lemma PtyInv(s: Link)
    requires Inv(s)
    ensures Inv(OpenPty(s))
  {
    if s.connected {
      AsideInv(s, OpenPty(s));
    }
  }

  /** An awaited open is over. */
  lemma OpenEnds(s: Link, channel: nat)
    requires Inv(s)
    ensures Inv(s.(opens := s.opens - {channel}))
  {
    AsideInv(s, s.(opens := s.opens - {channel}));
  }

  lemma OpenedInv(s: Link, channel: nat, ok: bool, err: Option<nat>)
    requires Inv(s) && DownIsAnswered(s) && NoClash(s, OpenedFrame(channel, ok, err))
    ensures Inv(Opened(s, channel, ok, err)) && DownIsAnswered(Opened(s, channel, ok, err))
  {
    hide Inv;
    if channel in s.opens {
      var t := s.(opens := s.opens - {channel});
      OpenEnds(s, channel);
      if !ok {
        SettleInv(t, channel, Rejected);
      } else if err.Some? {
        SameFree(s, t, err.value, channel);
        NameErrInv(t, channel, err.value);
      }
    }
  }

  lemma SameFree(s: Link, t: Link, channel: nat, me: nat)
    requires t.execs == s.execs && t.outcomes == s.outcomes
    ensures FreeFor(t, channel, me) <==> FreeFor(s, channel, me)
  {
    assert forall id | IsOpen(s, id) :: IsOpen(t, id) && ChannelsOf(t, id) == ChannelsOf(s, id);
    assert forall id | IsOpen(t, id) :: IsOpen(s, id);
  }

  lemma OpenExpiresInv(s: Link, channel: nat)
    requires Inv(s) && DownIsAnswered(s)
    ensures Inv(OpenExpires(s, channel)) && DownIsAnswered(OpenExpires(s, channel))
  {
    hide Inv;
    if channel in s.opens {
      OpenEnds(s, channel);
      SettleInv(s.(opens := s.opens - {channel}), channel, Rejected);
    }
  }

  lemma NoClashBefore(events: seq<Event>)
    requires events != []
    ensures var before := events[..|events| - 1];
            NoClashIn(events) <==> NoClashIn(before) && NoClash(Run(before), events[|events| - 1])
  {
    hide NoClash, Run;
    var n := |events| - 1;
    forall k: nat | k < n
      ensures NoClashAt(events[..n], k) <==> NoClashAt(events, k)
    {
      assert events[..n][..k] == events[..k];
    }
    assert NoClashAt(events, n) <==> NoClash(Run(events[..n]), events[n]);
  }

  lemma {:induction false} RunInv(events: seq<Event>)
    requires NoClashIn(events)
    ensures Inv(Run(events)) && DownIsAnswered(Run(events))
  {
    if events != [] {
      hide Inv, DownIsAnswered, Next, NoClash, NoClashIn;
      NoClashBefore(events);
      RunInv(events[..|events| - 1]);
      NextInv(Run(events[..|events| - 1]), events[|events| - 1]);
    }
  }

  // ----- exactly when every request can be reached -----

  lemma ClashReaches(s: Link, e: Event)
    requires Inv(s) && DownIsAnswered(s) && !NoClash(s, e)
    ensures !AllReachable(Next(s, e))
  {
    if e.Begin? {
      StartReaches(s, e.timed);
    } else {
      var t := s.(opens := s.opens - {e.channel});
      OpenEnds(s, e.channel);
      SameFree(s, t, e.err.value, e.channel);
      NameErrReaches(t, e.channel, e.err.value);
    }
    hide Inv, AllReachable, FreeFor;
  }

  ghost predicate ReachableAt(events: seq<Event>, k: nat)
    requires k <= |events|
  {
    AllReachable(Run(events[..k]))
  }

  ghost predicate ReachableIn(events: seq<Event>) {
    forall k: nat | k <= |events| :: ReachableAt(events, k)
  }

  lemma ReachableBefore(events: seq<Event>)
    requires events != []
    ensures ReachableIn(events) <==> ReachableIn(events[..|events| - 1]) && AllReachable(Run(events))
  {
    hide AllReachable, Run;
    var n := |events| - 1;
    forall k: nat | k <= n
      ensures ReachableAt(events[..n], k) <==> ReachableAt(events, k)
    {
      assert events[..n][..k] == events[..k];
    }
    assert events[..|events|] == events;
    assert ReachableAt(events, |events|) <==> AllReachable(Run(events));
  }

  lemma FreshReaches()
    ensures ReachableIn([])
  {
    assert forall k: nat | k <= 0 :: ReachableAt([], k);
  }

  /** All through a run every open request is found under each of its channels exactly when
      no step of the run gives it a clash. */
  lemma {:induction false} CollisionExactly(events: seq<Event>)
    ensures ReachableIn(events) <==> NoClashIn(events)
  {
    hide NoClash, NoClashIn, ReachableIn, AllReachable, Inv, Next;
    if events == [] {
      FreshReaches();
      NoClashAtFirst();
    } else {
      var before, e := events[..|events| - 1], events[|events| - 1];
      CollisionExactly(before);
      NoClashBefore(events);
      ReachableBefore(events);
      if NoClashIn(before) {
        RunInv(before);
        ClashDecides(Run(before), e);
      }
    }
  }

  lemma NoClashAtFirst()
    ensures NoClashIn([])
  {
  }

  lemma ClashDecides(s: Link, e: Event)
    requires Inv(s) && DownIsAnswered(s)
    ensures AllReachable(Next(s, e)) <==> NoClash(s, e)
  {
    hide Next, NoClash;
    if NoClash(s, e) {
      NextInv(s, e);
    } else {
      ClashReaches(s, e);
    }
  }

  // ----- one answer each -----

  /** An answer, once given, is never changed, and requests are never forgotten. */
  lemma NextKeeps(s: Link, e: Event, id: nat)
    ensures id in s.outcomes ==> id in Next(s, e).outcomes && Next(s, e).outcomes[id] == s.outcomes[id]
    ensures id in s.execs ==> id in Next(s, e).execs
  {
  }

  lemma {:induction false} OneAnswer(events: seq<Event>, more: seq<Event>, id: nat)
    ensures var s, t := Run(events), Run(events + more);
            && (id in s.outcomes ==> id in t.outcomes && t.outcomes[id] == s.outcomes[id])
            && (id in s.execs ==> id in t.execs)
    decreases |more|
  {
    if more == [] {
      assert events + more == events;
    } else {
      var init := more[..|more| - 1];
      OneAnswer(events, init, id);
      assert (events + more)[..|events + more| - 1] == events + init;
      hide Next;
      NextKeeps(Run(events + init), more[|more| - 1], id);
    }
  }

  /** Exactly what answers an open request. */
  predicate Answers(s: Link, e: Event, id: nat)
    requires id in s.execs
  {
    match e
    case ExitFrame(channel, _) => channel in ChannelsOf(s, id)
    case ErrorFrame(channel) => channel in ChannelsOf(s, id)
    case OpenedFrame(channel, ok, _) => channel == id && !ok && id in s.opens
    case OpenDeadline(channel) => channel == id && id in s.opens
    case Deadline(timer) => timer == id && s.execs[id].timed
    case Lost => true
    case Closed => true
    case _ => false
  }

  lemma EndAnswers(s: Link, id: nat)
    requires Inv(s) && id in s.execs
    ensures id in End(s).outcomes
  {
    assert id !in s.outcomes ==> Reachable(s, id) && s.pending[id] == id;
  }

  /** In every run, an open request is answered by a step exactly when the step is an exit or
      error on one of its channels, its own timer, the failure of its own open, or the end of
      the connection: no other request's frames can answer it. */
  lemma AnsweredExactly(events: seq<Event>, e: Event, id: nat)
    requires NoClashIn(events) && id in Run(events).execs && id !in Run(events).outcomes
    ensures id in Next(Run(events), e).outcomes <==> Answers(Run(events), e, id)
  {
    RunInv(events);
    AnsweredInStep(Run(events), e, id);
  }

  lemma FrameAnswers(s: Link, channel: nat, id: nat)
    requires Exact(s) && AllReachable(s) && IsOpen(s, id)
    ensures (channel in s.pending && s.pending[channel] == id) <==> channel in ChannelsOf(s, id)
  {
    assert Reachable(s, id);
  }

  lemma AnsweredByOpen(s: Link, e: Event, id: nat)
    requires IsOpen(s, id) && (e.OpenedFrame? || e.OpenDeadline?)
    ensures id in Next(s, e).outcomes <==> Answers(s, e, id)
  {
  }

  lemma AnsweredByFrame(s: Link, e: Event, id: nat)
    requires Exact(s) && AllReachable(s) && IsOpen(s, id) && (e.ExitFrame? || e.ErrorFrame?)
    ensures id in Next(s, e).outcomes <==> Answers(s, e, id)
  {
    FrameAnswers(s, e.channel, id);
    hide AllReachable, ChannelsOf;
  }

  lemma AnsweredInStep(s: Link, e: Event, id: nat)
    requires Inv(s) && DownIsAnswered(s) && id in s.execs && id !in s.outcomes
    ensures id in Next(s, e).outcomes <==> Answers(s, e, id)
  {
    hide Next, Answers;
    if e.ExitFrame? || e.ErrorFrame? {
      AnsweredByFrame(s, e, id);
    } else if e.OpenedFrame? || e.OpenDeadline? {
      AnsweredByOpen(s, e, id);
    } else if e.Lost? || e.Closed? {
      AnsweredByEnd(s, e, id);
    } else {
      hide Inv, DownIsAnswered, LinkPty.Concat;
      AnsweredByTimer(s, e, id);
    }
  }

  lemma AnsweredByEnd(s: Link, e: Event, id: nat)
    requires Inv(s) && s.connected && IsOpen(s, id) && (e.Lost? || e.Closed?)
    ensures id in Next(s, e).outcomes && Answers(s, e, id)
  {
    EndAnswers(s, id);
    hide End, Inv;
  }

  lemma AnsweredByTimer(s: Link, e: Event, id: nat)
    requires IsOpen(s, id) && (e.Begin? || e.BeginPty? || e.DataFrame? || e.Deadline?)
    ensures id in Next(s, e).outcomes <==> Answers(s, e, id)
  {
    if !e.Deadline? {
      assert Next(s, e).outcomes == s.outcomes;
    }
  }

  /** A connection that is down owes no answer. */
  lemma DownOwesNothing(events: seq<Event>)
    requires NoClashIn(events) && !Run(events).connected
    ensures forall id | id in Run(events).execs :: id in Run(events).outcomes
  {
    RunInv(events);
  }

  // ----- what the answer holds -----

  /** The payloads that arrived on the main channel while the request was open. */
  function StdoutOf(events: seq<Event>, id: nat): seq<Bytes> {
    if events == [] then []
    else
      var before, e := events[..|events| - 1], events[|events| - 1];
      StdoutOf(before, id) + if e.DataFrame? && e.channel == id && IsOpen(Run(before), id) then [e.payload] else []
  }

  /** The payloads that arrived on the channel named for stderr, once it was named. */
  function StderrOf(events: seq<Event>, id: nat): seq<Bytes> {
    if events == [] then []
    else
      var before, e := events[..|events| - 1], events[|events| - 1];
      StderrOf(before, id)
        + if e.DataFrame? && e.channel != id && IsOpen(Run(before), id) && Run(before).execs[id].err == Some(e.channel)
          then [e.payload] else []
  }

  lemma DataGoes(s: Link, channel: nat, payload: Bytes, id: nat)
    requires Inv(s) && id in s.execs
    ensures var t := Data(s, channel, payload);
            && t.execs[id].stdout == s.execs[id].stdout + (if channel == id && IsOpen(s, id) then [payload] else [])
            && t.execs[id].stderr == s.execs[id].stderr + (if channel != id && IsOpen(s, id) && s.execs[id].err == Some(channel) then [payload] else [])
  {
    assert IsOpen(s, id) ==> Reachable(s, id);
    assert channel in ChannelsOf(s, id) && IsOpen(s, id) ==> channel in s.pending && s.pending[channel] == id;
    assert channel in s.pending ==> channel in ChannelsOf(s, s.pending[channel]);
  }

  /** Nothing but data changes what a request has read. */
  lemma ReadStays(s: Link, e: Event, id: nat)
    requires id in s.execs && !e.DataFrame? && (e.Begin? ==> id < s.nextChannel)
    ensures Next(s, e).execs[id].stdout == s.execs[id].stdout && Next(s, e).execs[id].stderr == s.execs[id].stderr
  {
  }

  lemma ReadBegins(s: Link, e: Event, id: nat)
    requires id !in s.execs && id in Next(s, e).execs
    ensures Next(s, e).execs[id].stdout == [] && Next(s, e).execs[id].stderr == []
  {
  }

  /** Each request reads its own channels, in order, while it is open, and nothing else. */
  lemma {:induction false} ReadsItsOwn(events: seq<Event>, id: nat)
    requires NoClashIn(events)
    ensures id !in Run(events).execs ==> StdoutOf(events, id) == [] && StderrOf(events, id) == []
    ensures id in Run(events).execs ==>
              Run(events).execs[id].stdout == StdoutOf(events, id) && Run(events).execs[id].stderr == StderrOf(events, id)
  {
    if events != [] {
      var before, e := events[..|events| - 1], events[|events| - 1];
      var s := Run(before);
      NoClashBefore(events);
      ReadsItsOwn(before, id);
      RunInv(before);
      NextKeeps(s, e, id);
      if id in s.execs {
        if e.DataFrame? { DataGoes(s, e.channel, e.payload, id); } else { ReadStays(s, e, id); }
      } else if id in Next(s, e).execs {
        ReadBegins(s, e, id);
      }
      hide Next, Inv;
    }
  }

  /** A result carries exactly what was read, and one that timed out has no exit code. */
  lemma ResultIsWhatWasRead(events: seq<Event>, id: nat)
    requires NoClashIn(events) && id in Run(events).outcomes && Run(events).outcomes[id].Resolved?
    ensures var r := Run(events).outcomes[id];
            && r.stdout == LinkPty.Concat(StdoutOf(events, id)) && r.stderr == LinkPty.Concat(StderrOf(events, id))
            && (r.timedOut ==> r.code == None)
  {
    RunInv(events);
    ReadsItsOwn(events, id);
    hide Run, StdoutOf, StderrOf;
  }

  // ----- what a clash costs -----

  /** A request no frame, timer or loss can answer any more. */
  ghost predicate Stranded(s: Link, id: nat) {
    && id in s.execs && id !in s.outcomes && !s.execs[id].timed && id !in s.opens && id < s.nextChannel
    && forall c | c in s.pending :: s.pending[c] != id
  }

  lemma StrandedStays(s: Link, e: Event, id: nat)
    requires Stranded(s, id)
    ensures Stranded(Next(s, e), id)
  {
  }

  lemma {:induction false} StrandedForGood(events: seq<Event>, more: seq<Event>, id: nat)
    requires Stranded(Run(events), id)
    ensures Stranded(Run(events + more), id)
    decreases |more|
  {
    hide Stranded, Next;
    if more == [] {
      assert events + more == events;
    } else {
      var init := more[..|more| - 1];
      StrandedForGood(events, init, id);
      assert (events + more)[..|events + more| - 1] == events + init;
      StrandedStays(Run(events + init), more[|more| - 1], id);
    }
  }

  /** The end of the connection answers an open request exactly when the map still holds it
      or its open is still awaited. */
  lemma EndAnswersExactly(s: Link, id: nat)
    requires IsOpen(s, id)
    ensures id in End(s).outcomes <==> id in s.pending.Values || id in s.opens
  {
    hide Kept;
  }

  lemma {:induction false} RunNumbered(events: seq<Event>)
    ensures Numbered(Run(events))
  {
    if events != [] {
      RunNumbered(events[..|events| - 1]);
      NextNumbered(Run(events[..|events| - 1]), events[|events| - 1]);
      hide Next, Numbered;
    }
  }

  lemma NextNumbered(s: Link, e: Event)
    requires Numbered(s)
    ensures Numbered(Next(s, e))
  {
    hide ChannelsOf, Kept, LinkPty.Concat;
  }

  lemma OneMore(events: seq<Event>, e: Event)
    ensures Run(events + [e]) == Next(Run(events), e)
  {
    assert (events + [e])[..|events|] == events;
  }

  /** In every run, with or without a clash, an open request stays without an answer in every
      continuation exactly when it is stranded. */
  lemma StrandedExactly(events: seq<Event>, id: nat)
    requires IsOpen(Run(events), id)
    ensures Stranded(Run(events), id) <==> forall more: seq<Event> :: IsOpen(Run(events + more), id)
  {
    var s := Run(events);
    if Stranded(s, id) {
      forall more: seq<Event>
        ensures IsOpen(Run(events + more), id)
      {
        StrandedForGood(events, more, id);
      }
    } else {
      RunNumbered(events);
      EndAnswersExactly(s, id);
      OneMore(events, Closed);
      OneMore(events, Deadline(id));
      hide Run, End;
      if s.execs[id].timed {
        assert !IsOpen(Run(events + [Deadline(id)]), id);
      } else {
        assert !IsOpen(Run(events + [Closed]), id);
      }
    }
  }

  /** Two requests without a timer; the host names the second's channel for the first's
      stderr, and the first ends. */
  function Collision(): seq<Event> {
    [Begin(false), Begin(false), OpenedFrame(2, true, None), OpenedFrame(1, true, Some(2)), ExitFrame(1, Some(0))]
  }

  /** Then the second request is never answered, not even when the connection is lost. */
  lemma CollisionStrands(more: seq<Event>)
    ensures IsOpen(Run(Collision() + more), 2)
  {
    var c := Collision();
    assert c[..4][..3] == c[..3] && c[..3][..2] == c[..2] && c[..2][..1] == c[..1] && c[..1][..0] == [];
    var s2 := Run(c[..2]);
    assert Run(c[..1]) == Start(FRESH, false);
    assert s2 == Start(Start(FRESH, false), false);
    assert s2.pending == map[1 := 1, 2 := 2] && s2.opens == {1, 2};
    var s4 := Run(c[..4]);
    assert Run(c[..3]) == s2.(opens := {1});
    assert s4.pending == map[1 := 1, 2 := 1] && s4.opens == {};
    assert Run(c) == Next(s4, ExitFrame(1, Some(0)));
    assert Run(c).pending == map[];
    StrandedForGood(c, more, 2);
  }

  /** The host names a number the client has yet to give out, and the client then does. */
  function LateCollision(): seq<Event> {
    [Begin(false), OpenedFrame(1, true, Some(2)), Begin(false), ExitFrame(1, Some(0)), OpenedFrame(2, true, None)]
  }

  /** Then too the second request is never answered, although no channel in use was named. */
  lemma LateCollisionStrands(more: seq<Event>)
    ensures IsOpen(Run(LateCollision() + more), 2)
    ensures NoClashAt(LateCollision(), 1) && !NoClashAt(LateCollision(), 2)
  {
    var c := LateCollision();
    assert c[..4][..3] == c[..3] && c[..3][..2] == c[..2] && c[..2][..1] == c[..1] && c[..1][..0] == [];
    var s1, s2, s3 := Start(FRESH, false), Run(c[..2]), Run(c[..3]);
    assert Run(c[..1]) == s1;
    assert s2 == NameErr(s1.(opens := {}), 1, 2) && s2.pending == map[1 := 1, 2 := 1] && s2.opens == {} && s2.nextChannel == 2;
    assert s3 == Start(s2, false) && s3.pending == map[1 := 1, 2 := 2] && s3.opens == {2};
    var s4 := Run(c[..4]);
    assert s4 == Next(s3, ExitFrame(1, Some(0)));
    assert s4.pending == map[] && s4.opens == {2};
    assert Run(c) == s4.(opens := {});
    StrandedForGood(c, more, 2);
    assert IsOpen(s2, 1) && 2 in ChannelsOf(s2, 1);
  }
}
