/** src/linkCapability.ts: the exec requests of one link connection, from the opening of their
    channel to the one answer each gets. */
module LinkExec {
  import opened Collections
  import LinkPty

  type Bytes = LinkPty.Bytes

  /** A request, named by its main channel. The host may name a second channel for stderr. */
  datatype Exec = Exec(err: Option<nat>, stdout: seq<Bytes>, stderr: seq<Bytes>, timed: bool)

  datatype Outcome =
    | Resolved(code: Option<int>, stdout: Bytes, stderr: Bytes, timedOut: bool)
    | Rejected

  /** `pending` is the map from channels to unanswered requests; a request is answered once
      it has an outcome. */
  datatype Link = Link(connected: bool, nextChannel: nat, execs: map<nat, Exec>, pending: map<nat, nat>, opens: set<nat>,
                       outcomes: map<nat, Outcome>)

  const FRESH: Link := Link(true, 1, map[], map[], {}, map[])

  // ----- the steps -----

  /** `settleExec`, then the promise: only the first answer counts. */
  function Settle(s: Link, id: nat, outcome: Outcome): Link {
    if id !in s.execs || id in s.outcomes then s
    else s.(pending := s.pending - ChannelsOf(s, id), outcomes := s.outcomes[id := outcome])
  }

  function ChannelsOf(s: Link, id: nat): set<nat>
    requires id in s.execs
  {
    {id} + if s.execs[id].err.Some? then {s.execs[id].err.value} else {}
  }

  function Resolve(s: Link, id: nat, code: Option<int>, timedOut: bool): Link {
    if id !in s.execs then s
    else Settle(s, id, Resolved(code, LinkPty.Concat(s.execs[id].stdout), LinkPty.Concat(s.execs[id].stderr), timedOut))
  }

  function Unanswered(s: Link, ids: set<nat>): set<nat> {
    set id | id in ids && id in s.execs && id !in s.outcomes
  }

  /** The channels left when some requests are dropped. */
  function Kept(s: Link, ids: set<nat>): map<nat, nat>
    requires forall id | id in ids :: id in s.execs
  {
    map c | c in s.pending && (forall id | id in ids :: c !in ChannelsOf(s, id)) :: s.pending[c]
  }

  function AllRejected(ids: set<nat>): map<nat, Outcome> {
    map id | id in ids :: Rejected
  }

  /** Rejects every request of a set, whatever the order. */
  function RejectAll(s: Link, ids: set<nat>): Link {
    var open := Unanswered(s, ids);
    s.(pending := Kept(s, open), outcomes := s.outcomes + AllRejected(open))
  }

  function Start(s: Link, timed: bool): Link {
    if !s.connected then s
    else
      var id := s.nextChannel;
      s.(nextChannel := id + 1, execs := s.execs[id := Exec(None, [], [], timed)], pending := s.pending[id := id],
         opens := s.opens + {id})
  }

  function OpenPty(s: Link): Link {
    if !s.connected then s else s.(nextChannel := s.nextChannel + 1, opens := s.opens + {s.nextChannel})
  }

  function NameErr(s: Link, channel: nat, err: nat): Link {
    if channel !in s.pending || s.pending[channel] !in s.execs || s.execs[s.pending[channel]].err.Some? then s
    else
      var id := s.pending[channel];
      s.(execs := s.execs[id := s.execs[id].(err := Some(err))], pending := s.pending[err := id])
  }

  function Opened(s: Link, channel: nat, ok: bool, err: Option<nat>): Link {
    if channel !in s.opens then s
    else
      var t := s.(opens := s.opens - {channel});
      if !ok then Settle(t, channel, Rejected) else if err.Some? then NameErr(t, channel, err.value) else t
  }

  function OpenExpires(s: Link, channel: nat): Link {
    if channel !in s.opens then s else Settle(s.(opens := s.opens - {channel}), channel, Rejected)
  }

  function Data(s: Link, channel: nat, payload: Bytes): Link {
    if channel !in s.pending || s.pending[channel] !in s.execs then s
    else
      var id := s.pending[channel];
      var exec := s.execs[id];
      var more := if channel == id then exec.(stdout := exec.stdout + [payload]) else exec.(stderr := exec.stderr + [payload]);
      s.(execs := s.execs[id := more])
  }

  function Exit(s: Link, channel: nat, code: Option<int>): Link {
    if channel in s.pending then Resolve(s, s.pending[channel], code, false) else s
  }

  function ChannelError(s: Link, channel: nat): Link {
    if channel in s.pending then Settle(s, s.pending[channel], Rejected) else s
  }

  function TimeOut(s: Link, id: nat): Link {
    if id in s.execs && s.execs[id].timed && id !in s.outcomes then Resolve(s, id, None, true) else s
  }

  function End(s: Link): Link {
    var t := RejectAll(s.(connected := false), s.pending.Values);
    RejectAll(t, t.opens).(opens := {})
  }

  function Lose(s: Link): Link {
    if s.connected then End(s) else s
  }

  datatype Event =
    | Begin(timed: bool) | BeginPty | OpenedFrame(channel: nat, ok: bool, err: Option<nat>) | OpenDeadline(channel: nat)
    | DataFrame(channel: nat, payload: Bytes) | ExitFrame(channel: nat, code: Option<int>) | ErrorFrame(channel: nat)
    | Deadline(id: nat) | Lost | Closed

  function Next(s: Link, e: Event): Link {
    match e
    case Begin(timed) => Start(s, timed)
    case BeginPty => OpenPty(s)
    case OpenedFrame(channel, ok, err) => Opened(s, channel, ok, err)
    case OpenDeadline(channel) => OpenExpires(s, channel)
    case DataFrame(channel, payload) => Data(s, channel, payload)
    case ExitFrame(channel, code) => Exit(s, channel, code)
    case ErrorFrame(channel) => ChannelError(s, channel)
    case Deadline(id) => TimeOut(s, id)
    case Lost => Lose(s)
    case Closed => End(s)
  }

  function Run(events: seq<Event>): Link {
    if events == [] then FRESH else Next(Run(events[..|events| - 1]), events[|events| - 1])
  }

  // ----- the object -----

  lemma KeptOne(s: Link, ids: set<nat>, id: nat)
    requires id in s.execs && forall i | i in ids :: i in s.execs
    ensures Kept(s, ids + {id}) == Kept(s, ids) - ChannelsOf(s, id)
  {
    hide ChannelsOf;
    assert forall c :: (forall i | i in ids + {id} :: c !in ChannelsOf(s, i)) <==>
                       (forall i | i in ids :: c !in ChannelsOf(s, i)) && c !in ChannelsOf(s, id);
  }

  lemma KeptNone(s: Link)
    ensures Kept(s, {}) == s.pending
  {
  }

  /** One more request can be rejected after the others. */
  lemma RejectOne(s: Link, ids: set<nat>, id: nat)
    ensures RejectAll(s, ids + {id}) == Settle(RejectAll(s, ids), id, Rejected)
  {
    if id in Unanswered(s, {id}) && id !in ids {
      RejectNew(s, ids, id);
    } else {
      assert Unanswered(s, ids + {id}) == Unanswered(s, ids);
      hide Kept, ChannelsOf;
    }
  }

  lemma RejectNew(s: Link, ids: set<nat>, id: nat)
    requires id in s.execs && id !in s.outcomes && id !in ids
    ensures RejectAll(s, ids + {id}) == Settle(RejectAll(s, ids), id, Rejected)
  {
    var open := Unanswered(s, ids);
    assert Unanswered(s, ids + {id}) == open + {id} && id !in open;
    hide Unanswered;
    KeptOne(s, open, id);
    SameChannels(s, RejectAll(s, ids), id);
    RejectedOne(s.outcomes, open, id);
    hide Kept, ChannelsOf, AllRejected;
  }

  lemma RejectedOne(outcomes: map<nat, Outcome>, ids: set<nat>, id: nat)
    ensures outcomes + AllRejected(ids + {id}) == (outcomes + AllRejected(ids))[id := Rejected]
    ensures id !in outcomes && id !in ids ==> id !in outcomes + AllRejected(ids)
  {
  }

  lemma SameChannels(s: Link, t: Link, id: nat)
    requires s.execs == t.execs && id in s.execs
    ensures ChannelsOf(s, id) == ChannelsOf(t, id)
  {
  }

  lemma RejectNone(s: Link)
    ensures RejectAll(s, {}) == s
  {
    KeptNone(s);
  }

  class LinkExecs {
    var connected: bool
    var nextChannel: nat
    var execs: map<nat, Exec>
    var pending: map<nat, nat>
    var opens: set<nat>
    var outcomes: map<nat, Outcome>

    function State(): Link
      reads this
    {
      Link(connected, nextChannel, execs, pending, opens, outcomes)
    }

    constructor ()
      ensures State() == FRESH
    {
      connected, nextChannel, execs, pending, opens, outcomes := true, 1, map[], map[], {}, map[];
    }

    method SettleExec(id: nat, outcome: Outcome)
      modifies this
      ensures State() == Settle(old(State()), id, outcome)
    {
      if id !in execs || id in outcomes {
        return;
      }
      if execs[id].err.Some? {
        pending := pending - {id} - {execs[id].err.value};
      } else {
        pending := pending - {id};
      }
      outcomes := outcomes[id := outcome];
    }

    method ResolveExec(id: nat, code: Option<int>, timedOut: bool)
      modifies this
      ensures State() == Resolve(old(State()), id, code, timedOut)
    {
      if id in execs {
        SettleExec(id, Resolved(code, LinkPty.Concat(execs[id].stdout), LinkPty.Concat(execs[id].stderr), timedOut));
      }
    }

    method RejectEvery(ids: set<nat>)
      modifies this
      ensures State() == RejectAll(old(State()), ids)
    {
      ghost var start := State();
      ghost var done: set<nat> := {};
      var left := ids;
      RejectNone(start);
      while left != {}
        invariant done + left == ids
        invariant State() == RejectAll(start, done)
      {
        var id :| id in left;
        SettleExec(id, Rejected);
        RejectOne(start, done, id);
        left := left - {id};
        done := done + {id};
      }
      assert done == ids;
    }

    method StartExec(timed: bool)
      modifies this
      ensures State() == Start(old(State()), timed)
    {
      if connected {
        var id := nextChannel;
        nextChannel := nextChannel + 1;
        execs := execs[id := Exec(None, [], [], timed)];
        pending := pending[id := id];
        opens := opens + {id};
      }
    }

    method HandleOpened(channel: nat, ok: bool, err: Option<nat>)
      modifies this
      ensures State() == Opened(old(State()), channel, ok, err)
    {
      if channel !in opens {
        return;
      }
      opens := opens - {channel};
      if !ok {
        SettleExec(channel, Rejected);
      } else if err.Some? && channel in pending {
        var id := pending[channel];
        if id in execs && execs[id].err.None? {
          execs := execs[id := execs[id].(err := err)];
          pending := pending[err.value := id];
        }
      }
    }

    method OpenTimedOut(channel: nat)
      modifies this
      ensures State() == OpenExpires(old(State()), channel)
    {
      if channel in opens {
        opens := opens - {channel};
        SettleExec(channel, Rejected);
      }
    }

    method HandleData(channel: nat, payload: Bytes)
      modifies this
      ensures State() == Data(old(State()), channel, payload)
    {
      if channel in pending && pending[channel] in execs {
        var id := pending[channel];
        if channel == id {
          execs := execs[id := execs[id].(stdout := execs[id].stdout + [payload])];
        } else {
          execs := execs[id := execs[id].(stderr := execs[id].stderr + [payload])];
        }
      }
    }

    method HandleExit(channel: nat, code: Option<int>)
      modifies this
      ensures State() == Exit(old(State()), channel, code)
    {
      if channel in pending {
        ResolveExec(pending[channel], code, false);
      }
    }

    method HandleChannelError(channel: nat)
      modifies this
      ensures State() == ChannelError(old(State()), channel)
    {
      if channel in pending {
        SettleExec(pending[channel], Rejected);
      }
    }

    method TimerFires(id: nat)
      modifies this
      ensures State() == TimeOut(old(State()), id)
    {
      if id in execs && execs[id].timed && id !in outcomes {
        ResolveExec(id, None, true);
      }
    }

    method LoseConnection()
      modifies this
      ensures State() == Lose(old(State()))
    {
      if connected {
        CloseConnection();
      }
    }

    method CloseConnection()
      modifies this
      ensures State() == End(old(State()))
    {
      connected := false;
      RejectEvery(pending.Values);
      RejectEvery(opens);
      opens := {};
    }
  }
}
