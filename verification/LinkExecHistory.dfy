/** Each exec request of src/linkCapability.ts on its own: what its answer is, by the frames that
    are addressed to it. */
module LinkExecHistory {
  import opened Collections
  import opened LinkExec
  import opened LinkExecRuns
  import LinkPty

  datatype Request =
    | NotStarted
    | Open(timed: bool, awaited: bool, err: Option<nat>, stdout: seq<Bytes>, stderr: seq<Bytes>)
    | Over(outcome: Outcome)

  /** No end of the connection so far. */
  predicate Up(events: seq<Event>) {
    forall k | 0 <= k < |events| :: !events[k].Lost? && !events[k].Closed?
  }

  /** The number the next request or PTY is given: one for each that began on the live
      connection, from 1 on. */
  function Given(events: seq<Event>): nat {
    if events == [] then 1
    else
      var before, e := events[..|events| - 1], events[|events| - 1];
      Given(before) + if (e.Begin? || e.BeginPty?) && Up(before) then 1 else 0
  }

  /** The output read so far, as the answer carries it. */
  function Result(r: Request, code: Option<int>, timedOut: bool): Request
    requires r.Open?
  {
    Over(Resolved(code, LinkPty.Concat(r.stdout), LinkPty.Concat(r.stderr), timedOut))
  }

  /** What one event makes of an open request. */
  function Goes(r: Request, id: nat, e: Event): Request
    requires r.Open?
  {
    match e
    case OpenedFrame(channel, ok, err) =>
      if channel != id || !r.awaited then r
      else if ok then r.(awaited := false, err := err)
      else Over(Rejected)
    case OpenDeadline(channel) => if channel == id && r.awaited then Over(Rejected) else r
    case DataFrame(channel, payload) =>
      if channel == id then r.(stdout := r.stdout + [payload])
      else if r.err == Some(channel) then r.(stderr := r.stderr + [payload])
      else r
    case ExitFrame(channel, code) => if channel == id || r.err == Some(channel) then Result(r, code, false) else r
    case ErrorFrame(channel) => if channel == id || r.err == Some(channel) then Over(Rejected) else r
    case Deadline(timer) => if timer == id && r.timed then Result(r, None, true) else r
    case Lost => Over(Rejected)
    case Closed => Over(Rejected)
    case _ => r
  }

  /** A request by the events alone; no other request plays a part. */
  function History(events: seq<Event>, id: nat): Request {
    if events == [] then NotStarted
    else
      var before, e := events[..|events| - 1], events[|events| - 1];
      var r := History(before, id);
      if r.Open? then Goes(r, id, e)
      else if r.NotStarted? && e.Begin? && Up(before) && Given(before) == id then Open(e.timed, true, None, [], [])
      else r
  }

  /** A request as the connection holds it. */
  function View(s: Link, id: nat): Request {
    if id !in s.execs then NotStarted
    else if id in s.outcomes then Over(s.outcomes[id])
    else Open(s.execs[id].timed, id in s.opens, s.execs[id].err, s.execs[id].stdout, s.execs[id].stderr)
  }

  lemma {:induction false} UpIsConnected(events: seq<Event>)
    ensures Run(events).connected <==> Up(events)
    ensures Run(events).nextChannel == Given(events)
  {
    if events != [] {
      var before, e := events[..|events| - 1], events[|events| - 1];
      UpIsConnected(before);
      assert events == before + [e];
      NextCounts(Run(before), e);
      hide Next;
    }
  }

  lemma NextCounts(s: Link, e: Event)
    ensures Next(s, e).connected <==> s.connected && !e.Lost? && !e.Closed?
    ensures Next(s, e).nextChannel == s.nextChannel + if (e.Begin? || e.BeginPty?) && s.connected then 1 else 0
  {
  }

  // ----- one step -----

  /** A request that awaits its open has no second channel yet. */
  ghost predicate Unnamed(s: Link) {
    forall id | id in s.execs && id in s.opens && IsOpen(s, id) :: s.execs[id].err.None?
  }

  lemma NextUnnamed(s: Link, e: Event)
    requires Inv(s) && Unnamed(s)
    ensures Unnamed(Next(s, e))
  {
    hide LinkPty.Concat, Kept, AllReachable, Answers;
  }

  /** What a step makes of one request. */
  function Stepped(s: Link, r: Request, e: Event, id: nat): Request {
    if r.Open? then Goes(r, id, e)
    else if r.NotStarted? && e.Begin? && s.connected && s.nextChannel == id then Open(e.timed, true, None, [], [])
    else r
  }

  lemma Begins(s: Link, e: Event, id: nat)
    requires Inv(s) && (e.Begin? || e.BeginPty?)
    ensures View(Next(s, e), id) == Stepped(s, View(s, id), e, id)
  {
  }

  lemma Opens(s: Link, e: Event, id: nat)
    requires Inv(s) && Unnamed(s) && (e.OpenedFrame? || e.OpenDeadline?)
    ensures View(Next(s, e), id) == Stepped(s, View(s, id), e, id)
  {
    hide AllReachable, Exact, Numbered, NameErr;
    if e.channel in s.opens && e.OpenedFrame? && e.ok && e.err.Some? {
      OpenEnds(s, e.channel);
      NamesOwn(s.(opens := s.opens - {e.channel}), e.channel, e.err.value, id);
    }
  }

  /** A name for stderr goes to the request whose open it answers, if that is open. */
  lemma NamesOwn(s: Link, channel: nat, err: nat, id: nat)
    requires Inv(s) && (IsOpen(s, channel) ==> s.execs[channel].err.None?)
    ensures var r := View(s, id); View(NameErr(s, channel, err), id) == if channel == id && r.Open? then r.(err := Some(err)) else r
  {
    if IsOpen(s, channel) {
      assert Reachable(s, channel) && s.pending[channel] == channel;
    } else {
      NameErrIdle(s, channel, err);
    }
    hide AllReachable, Exact;
  }

  lemma Reads(s: Link, e: Event, id: nat)
    requires Inv(s) && e.DataFrame?
    ensures View(Next(s, e), id) == Stepped(s, View(s, id), e, id)
  {
    if IsOpen(s, id) {
      FrameAnswers(s, e.channel, id);
    }
    hide Inv, AllReachable, Exact;
    if id in s.execs {
      DataErr(s, e.channel, e.payload, id);
    }
  }

  lemma DataErr(s: Link, channel: nat, payload: Bytes, id: nat)
    requires id in s.execs
    ensures Data(s, channel, payload).execs[id].err == s.execs[id].err && Data(s, channel, payload).execs[id].timed == s.execs[id].timed
  {
  }

  lemma Ends(s: Link, e: Event, id: nat)
    requires Inv(s) && (e.ExitFrame? || e.ErrorFrame? || e.Deadline?)
    ensures View(Next(s, e), id) == Stepped(s, View(s, id), e, id)
  {
    if !e.Deadline? && IsOpen(s, id) {
      FrameAnswers(s, e.channel, id);
    }
    hide AllReachable, LinkPty.Concat;
  }

  lemma RejectView(s: Link, ids: set<nat>, id: nat)
    ensures var t := RejectAll(s, ids);
            t.execs == s.execs && t.opens == s.opens && View(t, id) == if id in ids && View(s, id).Open? then Over(Rejected) else View(s, id)
  {
    hide Kept;
  }

  lemma EndRejects(s: Link, id: nat)
    requires IsOpen(s, id) ==> id in s.pending.Values
    ensures View(End(s), id) == if View(s, id).Open? then Over(Rejected) else View(s, id)
  {
    var down := s.(connected := false);
    var t := RejectAll(down, s.pending.Values);
    RejectView(down, s.pending.Values, id);
    RejectView(t, t.opens, id);
    hide RejectAll;
  }

  lemma Drops(s: Link, e: Event, id: nat)
    requires Inv(s) && DownIsAnswered(s) && (e.Lost? || e.Closed?)
    ensures View(Next(s, e), id) == Stepped(s, View(s, id), e, id)
  {
    if IsOpen(s, id) {
      assert Reachable(s, id) && s.pending[id] == id;
    }
    hide Inv, Reachable, End;
    EndRejects(s, id);
  }

  lemma Steps(s: Link, e: Event, id: nat)
    requires Inv(s) && DownIsAnswered(s) && Unnamed(s)
    ensures View(Next(s, e), id) == Stepped(s, View(s, id), e, id)
  {
    hide Inv, Next, Stepped, View, Unnamed;
    match e
    case Begin(_) => Begins(s, e, id);
    case BeginPty => Begins(s, e, id);
    case OpenedFrame(_, _, _) => Opens(s, e, id);
    case OpenDeadline(_) => Opens(s, e, id);
    case DataFrame(_, _) => Reads(s, e, id);
    case ExitFrame(_, _) => Ends(s, e, id);
    case ErrorFrame(_) => Ends(s, e, id);
    case Deadline(_) => Ends(s, e, id);
    case Lost => Drops(s, e, id);
    case Closed => Drops(s, e, id);
  }

  // ----- every run -----

  lemma {:induction false} RunUnnamed(events: seq<Event>)
    requires NoClashIn(events)
    ensures Unnamed(Run(events))
  {
    if events != [] {
      hide Inv, Unnamed, Next, NoClashIn;
      var before := events[..|events| - 1];
      NoClashBefore(events);
      RunUnnamed(before);
      RunInv(before);
      NextUnnamed(Run(before), events[|events| - 1]);
    }
  }

  /** In every run without a clash each request, its answer with its exit code included, is what
      its own frames make of it. */
  lemma {:induction false} RequestsAreApart(events: seq<Event>, id: nat)
    requires NoClashIn(events)
    ensures View(Run(events), id) == History(events, id)
  {
    if events != [] {
      hide Inv, Unnamed, Next, NoClashIn, View;
      var before, e := events[..|events| - 1], events[|events| - 1];
      NoClashBefore(events);
      RequestsAreApart(before, id);
      RunInv(before);
      RunUnnamed(before);
      UpIsConnected(before);
      Steps(Run(before), e, id);
    }
  }

  /** The frame that gave an answer, and what it says: an exit carries the code of its frame,
      only the request's own timer makes it time out, and all else is a rejection. */
  predicate Explains(r: Request, id: nat, e: Event, outcome: Outcome) {
    && r.Open?
    && match outcome
       case Resolved(code, _, _, timedOut) =>
         if timedOut then e == Deadline(id) && r.timed && code.None?
         else e.ExitFrame? && (e.channel == id || r.err == Some(e.channel)) && code == e.code
       case Rejected =>
         || (e.OpenedFrame? && e.channel == id && !e.ok) || (e.OpenDeadline? && e.channel == id)
         || (e.ErrorFrame? && (e.channel == id || r.err == Some(e.channel))) || e.Lost? || e.Closed?
  }

  lemma {:induction false} AnswerIsExplained(events: seq<Event>, id: nat) returns (k: nat)
    requires NoClashIn(events) && id in Run(events).outcomes
    ensures k < |events| && Explains(History(events[..k], id), id, events[k], Run(events).outcomes[id])
  {
    RequestsAreApart(events, id);
    RunInv(events);
    assert History(events, id) == Over(Run(events).outcomes[id]);
    hide Run, NoClashIn;
    k := AnsweredAt(events, id);
  }

  lemma {:induction false} AnsweredAt(events: seq<Event>, id: nat) returns (k: nat)
    requires History(events, id).Over?
    ensures k < |events| && Explains(History(events[..k], id), id, events[k], History(events, id).outcome)
  {
    k := |events| - 1;
    if !History(events[..k], id).Open? {
      var n := AnsweredAt(events[..k], id);
      assert events[..k][..n] == events[..n];
      k := n;
    }
  }
}
