/** What each step does to the terminals of src/connectionController.ts, in every run: which
    input is sent, which output is delivered, and which terminals have a PTY. */
module TerminalPtysExact {
  import opened Collections
  import opened TerminalPtys
  import opened TerminalPtysRuns

  // ----- input -----

  /** The turn of an operation on a live terminal that still has the PTY it was submitted for. */
  ghost predicate IsTurn(t: Terminals, e: Event, channel: Channel) {
    && e.StartInput? && e.live && e.sendable && e.id in t.inputs && t.inputs[e.id].at.Queued? && IsFirst(t, e.id)
    && t.inputs[e.id].selected == Some(channel)
    && t.inputs[e.id].record in t.records && t.records[t.inputs[e.id].record].open
    && t.records[t.inputs[e.id].record].pty == Some(channel)
  }

  lemma SentSame(t: Terminals, e: Event)
    requires !e.StartInput?
    ensures Next(t, e).sent == t.sent
  {
    if Enabled(t, e) {
      hide PushRecord, RemoveTerminal, DetachAll, OpenTerminal, PreviousClosed, Opened, OpenFailed;
      hide PumpFails, ReadAnswered, ListenersDone, Probed, Start, EndInput, InputFailed;
      match e
      case _ =>
    }
  }

  lemma StartSends(t: Terminals, e: Event, channel: Channel)
    requires Inv(t) && e.StartInput?
    ensures Log(Next(t, e).sent, channel)
         == Log(t.sent, channel) + if IsTurn(t, e, channel) then [Sent(|Log(t.sent, channel)| + 1, e.id)] else []
  {
    hide Inv, IsFirst;
    if IsTurn(t, e, channel) {
      SequenceKnown(t, e.id, channel);
    }
  }

  /** In every run a step sends input on a channel if and only if it is the turn of an operation
      submitted for it, the terminal is live and the channel is still its PTY; it sends that
      operation, under the next number. */
  lemma SendsExactly(events: seq<Event>, e: Event, channel: Channel)
    ensures var t := Run(events);
            Log(Next(t, e).sent, channel)
            == Log(t.sent, channel) + if IsTurn(t, e, channel) then [Sent(|Log(t.sent, channel)| + 1, e.id)] else []
  {
    RunInv(events);
    hide Inv, Next, Log, IsTurn;
    if e.StartInput? {
      StartSends(Run(events), e, channel);
    } else {
      SentSame(Run(events), e);
      NoTurn(Run(events), e, channel);
    }
  }

  lemma NoTurn(t: Terminals, e: Event, channel: Channel)
    requires !e.StartInput?
    ensures !IsTurn(t, e, channel)
  {
  }

  /** Input submitted on an open PTY that is still the terminal's when its turn comes, on a live
      terminal, is sent. */
  lemma UndisturbedIsSent(events: seq<Event>, j: nat, record: RecordId, channel: Channel)
    requires j < |events| && events[j] == SubmitInput(record) && Enabled(Run(events[..j]), events[j])
    requires Run(events[..j]).records[record].pty == Some(channel)
    requires var id, t := Run(events[..j]).nextId, Run(events);
             && id in t.inputs && t.inputs[id].at.Queued? && IsFirst(t, id)
             && record in t.records && t.records[record].open && t.records[record].pty == Some(channel)
    ensures var id, t := Run(events[..j]).nextId, Run(events);
            Log(Next(t, StartInput(id, true, true)).sent, channel) == Log(t.sent, channel) + [Sent(|Log(t.sent, channel)| + 1, id)]
  {
    var id, t := Run(events[..j]).nextId, Run(events);
    assert events[..j + 1][..j] == events[..j];
    assert Run(events[..j + 1]).aimed[id] == Some(channel);
    AimedStays(events, j + 1, id);
    RunInv(events);
    assert InputOk(id, t.inputs[id], t.records, t.owner, t.aimed);
    assert t.inputs[id].record == record;
    hide Inv, Run, Next, Log;
    SendsExactly(events, StartInput(id, true, true), channel);
  }

  // ----- PTYs and their pumps -----

  /** A pump that reads the PTY of its record. */
  predicate Reads(pump: Pump, id: RecordId, record: Record) {
    pump.record == id && record.pty == Some(pump.channel) && pump.token == record.pumpToken && !pump.at.Probing?
  }

  ghost predicate IsPumped(pumps: map<nat, Pump>, id: RecordId, record: Record) {
    exists p :: p in pumps && Reads(pumps[p], id, record)
  }

  /** Every PTY is read, and a current pump reads the PTY of its record until it sees the end. */
  ghost predicate Pumped(disposed: bool, records: Records, pumps: map<nat, Pump>) {
    && (!disposed ==> forall id | id in records && records[id].pty.Some? :: IsPumped(pumps, id, records[id]))
    && (forall p | p in pumps && pumps[p].record in records && !pumps[p].at.Probing? && pumps[p].token == records[pumps[p].record].pumpToken ::
          records[pumps[p].record].pty == Some(pumps[p].channel))
  }

  ghost predicate PumpedOk(t: Terminals) {
    Pumped(t.disposed, t.records, t.pumps)
  }

  /** A record stays with its PTY and token, or loses both. */
  predicate Loosed(before: Record, after: Record) {
    (after.pty == before.pty && after.pumpToken == before.pumpToken) || (after.pty.None? && after.pumpToken > before.pumpToken)
  }

  lemma LoosedPumped(t: Terminals, records: Records, disposed: bool)
    requires Inv(t) && PumpedOk(t) && records.Keys == t.records.Keys && (t.disposed ==> disposed)
    requires forall id | id in records :: Loosed(t.records[id], records[id])
    ensures Pumped(disposed, records, t.pumps)
  {
    forall id | id in records && records[id].pty.Some? && !disposed
      ensures IsPumped(t.pumps, id, records[id])
    {
      assert IsPumped(t.pumps, id, t.records[id]);
      var p :| p in t.pumps && Reads(t.pumps[p], id, t.records[id]);
      assert Reads(t.pumps[p], id, records[id]);
    }
    forall p | p in t.pumps && t.pumps[p].record in records && !t.pumps[p].at.Probing? && t.pumps[p].token == records[t.pumps[p].record].pumpToken
      ensures records[t.pumps[p].record].pty == Some(t.pumps[p].channel)
    {
      assert PumpOk(t.pumps[p], t.records, t.owner, t.delivered);
    }
  }

  lemma PushPumped(t: Terminals)
    requires Inv(t) && PumpedOk(t)
    ensures PumpedOk(PushRecord(t))
  {
    var u := PushRecord(t);
    forall id | id in u.records && u.records[id].pty.Some? && !u.disposed
      ensures IsPumped(u.pumps, id, u.records[id])
    {
      assert IsPumped(t.pumps, id, t.records[id]);
    }
    forall p | p in t.pumps
      ensures t.pumps[p].record in t.records
    {
      assert PumpOk(t.pumps[p], t.records, t.owner, t.delivered);
    }
  }

  lemma ReopenedPumped(t: Terminals, record: RecordId, channel: Channel, pumps: map<nat, Pump>)
    requires Inv(t) && PumpedOk(t) && record in t.records && t.nextId !in t.pumps
    requires pumps == t.pumps[t.nextId := Pump(record, t.records[record].pumpToken + 1, channel, Reading)]
    ensures Pumped(t.disposed, t.records[record := Reopened(t.records[record], channel)], pumps)
  {
    var records := t.records[record := Reopened(t.records[record], channel)];
    assert Reads(pumps[t.nextId], record, records[record]);
    forall r | r in t.records && r != record && t.records[r].pty.Some? && !t.disposed
      ensures IsPumped(pumps, r, records[r])
    {
      assert IsPumped(t.pumps, r, t.records[r]);
      var p :| p in t.pumps && Reads(t.pumps[p], r, t.records[r]);
      assert p in pumps && Reads(pumps[p], r, records[r]);
    }
    forall p | p in t.pumps
      ensures p != t.nextId && t.pumps[p].record in t.records && t.pumps[p].token <= t.records[t.pumps[p].record].pumpToken
    {
      assert PumpOk(t.pumps[p], t.records, t.owner, t.delivered);
    }
  }

  lemma OpenedParts(t: Terminals, id: nat, channel: Channel, stale: bool)
    requires id in t.attaches && t.attaches[id].record in t.records && channel !in t.owner
    ensures var u, record := Opened(t, id, channel, stale), t.attaches[id].record;
            && u.disposed == t.disposed
            && if Superseded(t, t.attaches[id], stale) then u.records == t.records && u.pumps == t.pumps
               else && u.records == t.records[record := Reopened(t.records[record], channel)]
                    && u.pumps == t.pumps[t.nextId := Pump(record, t.records[record].pumpToken + 1, channel, Reading)]
  {
  }

  lemma OpenedPumped(t: Terminals, id: nat, channel: Channel, stale: bool)
    requires Inv(t) && PumpedOk(t) && id in t.attaches && t.attaches[id].record in t.records && channel !in t.owner
    ensures PumpedOk(Opened(t, id, channel, stale))
  {
    assert t.nextId !in t.pumps;
    hide Inv, Pumped, Superseded, Opened;
    OpenedParts(t, id, channel, stale);
    if !Superseded(t, t.attaches[id], stale) {
      ReopenedPumped(t, t.attaches[id].record, channel, Opened(t, id, channel, stale).pumps);
    }
  }

  /** A pump ends, or its record changes with it. */
  ghost predicate PumpSteps(t: Terminals, id: nat, record: Record, pumps: map<nat, Pump>) {
    && id in t.pumps && t.pumps[id].record in t.records
    && (pumps == t.pumps - {id} || (id in pumps && pumps == t.pumps[id := t.pumps[id].(at := pumps[id].at)]))
    && (var was := t.records[t.pumps[id].record];
        || Loosed(was, record)
        || (record.pty.None? && record.pumpToken == was.pumpToken && Current(t, t.pumps[id]) && id in pumps && pumps[id].at.Probing?))
    && (id in pumps && !pumps[id].at.Probing? ==> !t.pumps[id].at.Probing?)
    && (Reads(t.pumps[id], t.pumps[id].record, record) && !t.disposed ==> id in pumps && !pumps[id].at.Probing?)
  }

  lemma PumpStepReads(t: Terminals, id: nat, record: Record, pumps: map<nat, Pump>, r: RecordId)
    requires PumpedOk(t) && PumpSteps(t, id, record, pumps) && !t.disposed && r in t.records
    requires t.records[t.pumps[id].record := record][r].pty.Some?
    ensures IsPumped(pumps, r, t.records[t.pumps[id].record := record][r])
  {
    var after := t.records[t.pumps[id].record := record][r];
    assert IsPumped(t.pumps, r, t.records[r]);
    var p :| p in t.pumps && Reads(t.pumps[p], r, t.records[r]);
    assert Reads(t.pumps[p], r, after);
    assert p in pumps && Reads(pumps[p], r, after);
  }

  lemma PumpStepPumped(t: Terminals, id: nat, record: Record, pumps: map<nat, Pump>)
    requires Inv(t) && PumpedOk(t) && PumpSteps(t, id, record, pumps)
    ensures Pumped(t.disposed, t.records[t.pumps[id].record := record], pumps)
  {
    var records := t.records[t.pumps[id].record := record];
    forall r | r in records && records[r].pty.Some? && !t.disposed
      ensures IsPumped(pumps, r, records[r])
    {
      PumpStepReads(t, id, record, pumps, r);
    }
    forall p | p in pumps && pumps[p].record in records && !pumps[p].at.Probing? && pumps[p].token == records[pumps[p].record].pumpToken
      ensures records[pumps[p].record].pty == Some(pumps[p].channel)
    {
      assert PumpOk(t.pumps[p], t.records, t.owner, t.delivered);
      assert p != id && pumps[p].record == t.pumps[id].record ==> t.pumps[p].token != t.pumps[id].token;
    }
  }

  lemma EndPumpPumped(t: Terminals, id: nat)
    requires Inv(t) && PumpedOk(t) && id in t.pumps && t.pumps[id].record in t.records && !Current(t, t.pumps[id])
    ensures PumpedOk(EndPump(t, id))
  {
    var record := t.pumps[id].record;
    PumpStepPumped(t, id, t.records[record], t.pumps - {id});
    assert t.records[record := t.records[record]] == t.records;
  }

  lemma FailsPumped(t: Terminals, id: nat, keep: bool)
    requires Inv(t) && PumpedOk(t) && id in t.pumps && t.pumps[id].record in t.records
    ensures PumpedOk(PumpFails(t, id, t.pumps[id], keep))
  {
    var record := t.records[t.pumps[id].record];
    if Current(t, t.pumps[id]) {
      hide Inv, Pumped;
      PumpStepPumped(t, id, if keep then record.(pty := None, pumpToken := record.pumpToken + 1) else Stopped(record).(open := false),
                     t.pumps - {id});
    } else {
      EndPumpPumped(t, id);
    }
  }

  lemma DeliveringPumped(t: Terminals, id: nat, sequence: nat, eof: bool)
    requires Inv(t) && PumpedOk(t) && id in t.pumps && t.pumps[id].record in t.records && t.pumps[id].at.Reading?
    ensures PumpedOk(t.(pumps := t.pumps[id := t.pumps[id].(at := Delivering(sequence, eof))]))
  {
    hide Inv, Pumped;
    var record := t.pumps[id].record;
    PumpStepPumped(t, id, t.records[record], t.pumps[id := t.pumps[id].(at := Delivering(sequence, eof))]);
    assert t.records[record := t.records[record]] == t.records;
  }

  /** A current pump that is not at the end reads on. */
  lemma CurrentReads(t: Terminals, id: nat)
    requires Inv(t) && PumpedOk(t) && id in t.pumps && t.pumps[id].record in t.records
    requires Current(t, t.pumps[id]) && !t.pumps[id].at.Probing?
    ensures t.records[t.pumps[id].record].pty == Some(t.pumps[id].channel)
  {
  }

  lemma LoopPumped(t: Terminals, id: nat, record: Record)
    requires Inv(t) && PumpedOk(t) && id in t.pumps && t.pumps[id].record in t.records && !t.pumps[id].at.Probing? && Current(t, t.pumps[id])
    requires record == t.records[t.pumps[id].record].(readSequence := record.readSequence)
    ensures PumpedOk(ReadOn(SetRecord(t, t.pumps[id].record, record), id, t.pumps[id]))
  {
    CurrentReads(t, id);
    hide Inv, Pumped;
    PumpStepPumped(t, id, record, t.pumps[id := t.pumps[id].(at := Reading)]);
  }

  lemma EofPumped(t: Terminals, id: nat, record: Record)
    requires Inv(t) && PumpedOk(t) && id in t.pumps && t.pumps[id].record in t.records && Current(t, t.pumps[id])
    requires record == t.records[t.pumps[id].record].(readSequence := record.readSequence)
    ensures PumpedOk(EndOfFile(SetRecord(t, t.pumps[id].record, record), id, t.pumps[id]))
  {
    hide Inv, Pumped;
    var r := t.pumps[id].record;
    PumpStepPumped(t, id, record.(pty := None), t.pumps[id := t.pumps[id].(at := Probing)]);
    assert t.records[r := record][r := record.(pty := None)] == t.records[r := record.(pty := None)];
  }

  lemma ReadPumped(t: Terminals, id: nat, answer: Answer, keep: bool)
    requires Inv(t) && PumpedOk(t) && id in t.pumps && t.pumps[id].record in t.records && t.pumps[id].at.Reading?
    ensures PumpedOk(ReadAnswered(t, id, answer, keep))
  {
    hide Inv, Pumped;
    var pump := t.pumps[id];
    var record := t.records[pump.record];
    assert t.records[pump.record := record] == t.records;
    if !Current(t, pump) {
      EndPumpPumped(t, id);
    } else if !Acceptable(record, answer) {
      FailsPumped(t, id, keep);
    } else if answer.sequence == record.readSequence + 1 {
      DeliveringPumped(t, id, answer.sequence, answer.eof);
    } else if answer.eof {
      EofPumped(t, id, record);
    } else {
      LoopPumped(t, id, record);
    }
  }

  lemma ListenedPumped(t: Terminals, id: nat)
    requires Inv(t) && PumpedOk(t) && id in t.pumps && t.pumps[id].record in t.records && t.pumps[id].at.Delivering?
    ensures PumpedOk(ListenersDone(t, id))
  {
    hide Inv, Pumped;
    var pump := t.pumps[id];
    var record := t.records[pump.record].(readSequence := pump.at.sequence);
    if !Current(t, pump) {
      EndPumpPumped(t, id);
    } else if pump.at.eof {
      EofPumped(t, id, record);
    } else {
      LoopPumped(t, id, record);
    }
  }

  lemma ProbedPumped(t: Terminals, id: nat, stays: bool)
    requires Inv(t) && PumpedOk(t) && id in t.pumps && t.pumps[id].record in t.records && t.pumps[id].at.Probing?
    ensures PumpedOk(Probed(t, id, stays))
  {
    hide Inv, Pumped;
    var record := t.pumps[id].record;
    var kept := Stopped(t.records[record]).(open := false);
    PumpStepPumped(t, id, kept, t.pumps - {id});
    PumpStepPumped(t, id, t.records[record], t.pumps - {id});
    assert t.records[record := t.records[record]] == t.records;
  }

  lemma RecordPumped(t: Terminals, id: RecordId, record: Record)
    requires Inv(t) && PumpedOk(t) && id in t.records && Loosed(t.records[id], record)
    ensures Pumped(t.disposed, t.records[id := record], t.pumps)
  {
    hide Inv, Pumped;
    LoosedPumped(t, t.records[id := record], t.disposed);
  }

  lemma StartPumped(t: Terminals, id: nat, live: bool, sendable: bool)
    requires Inv(t) && PumpedOk(t) && id in t.inputs && t.inputs[id].record in t.records
    ensures PumpedOk(Start(t, id, live, sendable))
  {
    hide Inv, Pumped;
    var u := Start(t, id, live, sendable);
    var record := t.inputs[id].record;
    if u.records != t.records {
      RecordPumped(t, record, u.records[record]);
    }
  }

  lemma InputFailedPumped(t: Terminals, id: nat)
    requires Inv(t) && PumpedOk(t) && id in t.inputs && t.inputs[id].record in t.records
    ensures PumpedOk(InputFailed(t, id))
  {
    hide Inv, Pumped;
    var record := t.records[t.inputs[id].record];
    if record.pty == t.inputs[id].selected {
      RecordPumped(t, t.inputs[id].record, record.(pty := None, pumpToken := record.pumpToken + 1));
    }
  }

  lemma OpenPumped(t: Terminals, id: RecordId)
    requires Inv(t) && PumpedOk(t) && id in t.records
    ensures PumpedOk(OpenTerminal(t, id))
  {
    hide Inv, Pumped;
    var u := OpenTerminal(t, id);
    RecordPumped(t, id, u.records[id]);
  }

  lemma DetachPumped(t: Terminals, forget: bool)
    requires Inv(t) && PumpedOk(t)
    ensures PumpedOk(DetachAll(t, forget))
  {
    hide Inv, Pumped;
    var u := DetachAll(t, forget);
    LoosedPumped(t, u.records, t.disposed);
  }

  lemma OtherPumped(t: Terminals, e: Event)
    requires Inv(t) && PumpedOk(t) && Enabled(t, e) && (e.PreviousIsClosed? || e.OpenFails? || e.SubmitInput? || e.InputDone?)
    ensures PumpedOk(Next(t, e))
  {
    hide Inv, Pumped, IsFirst, PushRecord, RemoveTerminal, DetachAll, OpenTerminal, Opened;
    hide PumpFails, ReadAnswered, ListenersDone, Probed, Start, InputFailed;
  }

  lemma NextPumped(t: Terminals, e: Event)
    requires Inv(t) && PumpedOk(t)
    ensures PumpedOk(Next(t, e))
  {
    hide Inv, Pumped, IsFirst;
    if Enabled(t, e) {
      match e
      case IsOpened(id, channel, stale) => OpenedPumped(t, id, channel, stale);
      case Read(id, answer, keep) => ReadPumped(t, id, answer, keep);
      case PumpError(id, keep) => FailsPumped(t, id, keep);
      case Listened(id) => ListenedPumped(t, id);
      case ProbeDone(id, stays) => ProbedPumped(t, id, stays);
      case StartInput(id, live, sendable) => StartPumped(t, id, live, sendable);
      case InputError(id) => InputFailedPumped(t, id);
      case NewRecord => PushPumped(t);
      case Remove(record) => RecordPumped(t, record, Stopped(t.records[record]).(open := false));
      case Detach(forget) => DetachPumped(t, forget);
      case CloseController => LoosedPumped(t, t.records, true);
      case Open(record) => OpenPumped(t, record);
      case _ => OtherPumped(t, e);
    }
  }

  lemma {:induction false} RunPumped(events: seq<Event>)
    ensures PumpedOk(Run(events))
  {
    if events != [] {
      hide Inv, Pumped, Next;
      RunPumped(events[..|events| - 1]);
      RunInv(events[..|events| - 1]);
      NextPumped(Run(events[..|events| - 1]), events[|events| - 1]);
    }
  }

  // ----- output -----

  /** An open PTY has a pump, and only one. */
  lemma PtyIsRead(events: seq<Event>, id: RecordId)
    requires var t := Run(events); !t.disposed && id in t.records && t.records[id].pty.Some?
    ensures var t := Run(events); exists p :: p in t.pumps && Reads(t.pumps[p], id, t.records[id])
    ensures var t := Run(events);
            forall p, q | p in t.pumps && q in t.pumps && Reads(t.pumps[p], id, t.records[id]) && Reads(t.pumps[q], id, t.records[id]) :: p == q
  {
    RunInv(events);
    RunPumped(events);
    hide Run;
    var t := Run(events);
    assert IsPumped(t.pumps, id, t.records[id]);
  }

  /** What the pump of a PTY may be answered after `n` chunks: nothing, or the next chunk. */
  predicate Fits(answer: Answer, n: nat) {
    !answer.garbled && ((answer.sequence == n && answer.bytes == []) || (answer.sequence == n + 1 && answer.bytes != []))
  }

  /** The pump of a PTY reads its next chunk. */
  predicate IsChunk(t: Terminals, e: Event, channel: Channel) {
    && e.Read? && !t.disposed && e.id in t.pumps && t.pumps[e.id].at.Reading? && t.pumps[e.id].channel == channel
    && t.pumps[e.id].record in t.records && Reads(t.pumps[e.id], t.pumps[e.id].record, t.records[t.pumps[e.id].record])
    && Fits(e.answer, |Log(t.delivered, channel)|) && e.answer.bytes != []
  }

  lemma DeliveredSame(t: Terminals, e: Event)
    requires !e.Read?
    ensures Next(t, e).delivered == t.delivered
  {
    if Enabled(t, e) {
      hide PushRecord, RemoveTerminal, DetachAll, OpenTerminal, PreviousClosed, Opened, OpenFailed;
      hide PumpFails, ReadAnswered, ListenersDone, Probed, Start, EndInput, InputFailed;
      match e
      case _ =>
    }
  }

  lemma ReaderKnows(t: Terminals, id: nat)
    requires Inv(t) && PumpedOk(t) && id in t.pumps && t.pumps[id].at.Reading?
    ensures t.pumps[id].record in t.records && t.pumps[id].channel in t.owner && t.owner[t.pumps[id].channel] == t.pumps[id].record
    ensures t.pumps[id].token == t.records[t.pumps[id].record].pumpToken ==>
              && t.records[t.pumps[id].record].readSequence == |Log(t.delivered, t.pumps[id].channel)|
              && t.records[t.pumps[id].record].pty == Some(t.pumps[id].channel)
  {
    assert PumpOk(t.pumps[id], t.records, t.owner, t.delivered);
  }

  lemma ReadDelivers(t: Terminals, e: Event, channel: Channel)
    requires Inv(t) && PumpedOk(t) && e.Read? && channel in t.owner
    ensures Log(Next(t, e).delivered, channel)
         == Log(t.delivered, channel)
            + if IsChunk(t, e, channel) then [Delivered(|Log(t.delivered, channel)| + 1, e.answer.bytes, t.owner[channel])] else []
  {
    hide Inv, PumpedOk, PumpFails, ReadOn, EndOfFile;
    if e.id in t.pumps && t.pumps[e.id].at.Reading? {
      ReaderKnows(t, e.id);
    }
  }

  /** In every run a step delivers output of a channel if and only if it answers the pump of the
      terminal that opened it, whose PTY the channel still is, with the next chunk. */
  lemma DeliversExactly(events: seq<Event>, e: Event, channel: Channel)
    requires channel in Run(events).owner
    ensures var t := Run(events);
            Log(Next(t, e).delivered, channel)
            == Log(t.delivered, channel)
               + if IsChunk(t, e, channel) then [Delivered(|Log(t.delivered, channel)| + 1, e.answer.bytes, t.owner[channel])] else []
  {
    RunInv(events);
    RunPumped(events);
    hide Inv, PumpedOk, Next, Log, Fits, Reads;
    if e.Read? {
      ReadDelivers(Run(events), e, channel);
    } else {
      DeliveredSame(Run(events), e);
    }
  }

  // ----- who has a PTY -----

  predicate IsCurrentPump(t: Terminals, id: nat, record: RecordId) {
    && !t.disposed && id in t.pumps && record in t.records
    && t.pumps[id].record == record && t.pumps[id].token == t.records[record].pumpToken
  }

  /** The pump of a record cannot go on. */
  predicate PumpBreaks(t: Terminals, e: Event, record: RecordId) {
    || (e.PumpError? && IsCurrentPump(t, e.id, record))
    || (e.Read? && IsCurrentPump(t, e.id, record) && t.pumps[e.id].at.Reading?
        && !Fits(e.answer, |Log(t.delivered, t.pumps[e.id].channel)|))
  }

  /** The pump of a record sees the end of its PTY. */
  predicate PumpEnds(t: Terminals, e: Event, record: RecordId) {
    || (e.Read? && IsCurrentPump(t, e.id, record) && t.pumps[e.id].at.Reading? && e.answer.eof && e.answer.bytes == []
        && Fits(e.answer, |Log(t.delivered, t.pumps[e.id].channel)|))
    || (e.Listened? && IsCurrentPump(t, e.id, record) && t.pumps[e.id].at.Delivering? && t.pumps[e.id].at.eof)
  }

  /** The latest attach of an open terminal opens its channel, on the current connection. */
  predicate Gets(t: Terminals, e: Event, record: RecordId) {
    && e.IsOpened? && !e.stale && Enabled(t, e) && record in t.records && t.records[record].open
    && t.attaches[e.id].record == record && t.attaches[e.id].token == t.records[record].attachToken
  }

  predicate Loses(t: Terminals, e: Event, record: RecordId)
    requires record in t.records
  {
    || ((e.Remove? || (e.Open? && t.records[record].open)) && e.record == record)
    || (e.Detach? && t.records[record].open)
    || PumpBreaks(t, e, record) || PumpEnds(t, e, record)
    || (e.InputError? && e.id in t.inputs && t.inputs[e.id].at.Sending? && t.inputs[e.id].record == record
        && t.inputs[e.id].selected == t.records[record].pty)
  }

  /** The terminal goes: by hand, with all, or because its PTY broke or ended for good. */
  predicate Goes(t: Terminals, e: Event, record: RecordId)
    requires record in t.records
  {
    || (e.Remove? && e.record == record)
    || (e.Detach? && e.forget && t.records[record].open)
    || (PumpBreaks(t, e, record) && !e.keep)
    || (e.ProbeDone? && IsCurrentPump(t, e.id, record) && t.pumps[e.id].at.Probing? && !e.stays)
  }

  function PtyAfter(t: Terminals, e: Event, record: RecordId): Option<Channel>
    requires record in t.records
  {
    if Gets(t, e, record) then Some(e.channel) else if Loses(t, e, record) || Goes(t, e, record) then None else t.records[record].pty
  }

  /** PTY and membership of a terminal after a step. */
  ghost predicate Explained(t: Terminals, e: Event, record: RecordId)
    requires record in t.records
  {
    var u := Next(t, e);
    && record in u.records
    && u.records[record].pty == PtyAfter(t, e, record)
    && u.records[record].open == (t.records[record].open && !Goes(t, e, record))
  }

  /** What a pump that breaks leaves of its record. */
  function Broken(record: Record, keep: bool): Record {
    if keep then record.(pty := None, pumpToken := record.pumpToken + 1) else Stopped(record).(open := false)
  }

  lemma FailsRecords(t: Terminals, id: nat, pump: Pump, keep: bool)
    requires pump.record in t.records
    ensures PumpFails(t, id, pump, keep).records
         == if Current(t, pump) then t.records[pump.record := Broken(t.records[pump.record], keep)] else t.records
  {
  }

  lemma ReadRecords(t: Terminals, id: nat, answer: Answer, keep: bool)
    requires id in t.pumps && t.pumps[id].record in t.records
    ensures var pump := t.pumps[id];
            var record := t.records[pump.record];
            ReadAnswered(t, id, answer, keep).records
            == if !Current(t, pump) then t.records
               else if !Fits(answer, record.readSequence) then t.records[pump.record := Broken(record, keep)]
               else if answer.bytes == [] && answer.eof then t.records[pump.record := record.(pty := None)]
               else t.records
  {
    hide PumpFails, Broken;
    FailsRecords(t, id, t.pumps[id], keep);
  }

  /** Only answers to its pump break or end it. */
  lemma PumpIdle(t: Terminals, e: Event, record: RecordId)
    ensures !e.Read? && !e.PumpError? ==> !PumpBreaks(t, e, record)
    ensures !e.Read? && !e.Listened? ==> !PumpEnds(t, e, record)
    ensures !e.IsOpened? ==> !Gets(t, e, record)
  {
  }

  lemma ReadIs(t: Terminals, e: Event)
    requires e.Read? && Enabled(t, e)
    ensures Next(t, e) == ReadAnswered(t, e.id, e.answer, e.keep)
  {
    hide PushRecord, RemoveTerminal, DetachAll, OpenTerminal, PreviousClosed, Opened, OpenFailed, PumpFails;
    hide ReadAnswered, ListenersDone, Probed, Submit, Start, EndInput, InputFailed;
  }

  lemma ReadByPump(t: Terminals, e: Event, record: RecordId)
    requires record in t.records && e.Read? && Enabled(t, e) && IsCurrentPump(t, e.id, record)
    requires t.records[record].readSequence == |Log(t.delivered, t.pumps[e.id].channel)|
    ensures Explained(t, e, record)
  {
    ReadIs(t, e);
    hide Log, Fits, Gets, Next, ReadAnswered;
    PumpIdle(t, e, record);
    ReadRecords(t, e.id, e.answer, e.keep);
  }

  lemma ReadByOther(t: Terminals, e: Event, record: RecordId)
    requires record in t.records && e.Read? && Enabled(t, e) && !IsCurrentPump(t, e.id, record)
    ensures Explained(t, e, record)
  {
    ReadIs(t, e);
    hide Log, Fits, Gets, Next, ReadAnswered, Broken;
    PumpIdle(t, e, record);
    ReadRecords(t, e.id, e.answer, e.keep);
  }

  lemma ReadExplained(t: Terminals, e: Event, record: RecordId)
    requires Inv(t) && PumpedOk(t) && record in t.records && e.Read? && Enabled(t, e)
    ensures Explained(t, e, record)
  {
    ReaderKnows(t, e.id);
    hide Inv, PumpedOk, Log, Explained;
    if IsCurrentPump(t, e.id, record) {
      ReadByPump(t, e, record);
    } else {
      ReadByOther(t, e, record);
    }
  }

  lemma PumpErrorExplained(t: Terminals, e: Event, record: RecordId)
    requires record in t.records && e.PumpError? && Enabled(t, e)
    ensures Explained(t, e, record)
  {
    hide PushRecord, RemoveTerminal, DetachAll, OpenTerminal, PreviousClosed, Opened, OpenFailed, PumpFails;
    hide ReadAnswered, ListenersDone, Probed, Submit, Start, EndInput, InputFailed;
    FailsRecords(t, e.id, t.pumps[e.id], e.keep);
  }

  lemma ListenedRecords(t: Terminals, id: nat)
    requires id in t.pumps && t.pumps[id].record in t.records && t.pumps[id].at.Delivering?
    ensures var pump := t.pumps[id];
            var record := t.records[pump.record].(readSequence := pump.at.sequence);
            ListenersDone(t, id).records
            == if !Current(t, pump) then t.records else t.records[pump.record := if pump.at.eof then record.(pty := None) else record]
  {
    var pump := t.pumps[id];
    var record := t.records[pump.record].(readSequence := pump.at.sequence);
    assert t.records[pump.record := record][pump.record := record.(pty := None)] == t.records[pump.record := record.(pty := None)];
  }

  lemma ListenedExplained(t: Terminals, e: Event, record: RecordId)
    requires record in t.records && e.Listened? && Enabled(t, e)
    ensures Explained(t, e, record)
  {
    hide PushRecord, RemoveTerminal, DetachAll, OpenTerminal, PreviousClosed, Opened, OpenFailed, PumpFails;
    hide ReadAnswered, ListenersDone, Probed, Submit, Start, EndInput, InputFailed;
    ListenedRecords(t, e.id);
  }

  lemma ProbedRecords(t: Terminals, id: nat, stays: bool)
    requires id in t.pumps && t.pumps[id].record in t.records
    ensures var record := t.pumps[id].record;
            Probed(t, id, stays).records
            == if Current(t, t.pumps[id]) && !stays then t.records[record := Stopped(t.records[record]).(open := false)] else t.records
  {
  }

  lemma ProbedExplained(t: Terminals, e: Event, record: RecordId)
    requires record in t.records && e.ProbeDone? && Enabled(t, e)
    ensures Explained(t, e, record)
  {
    PumpIdle(t, e, record);
    hide PumpBreaks, PumpEnds, Gets;
    hide PushRecord, RemoveTerminal, DetachAll, OpenTerminal, PreviousClosed, Opened, OpenFailed, PumpFails;
    hide ReadAnswered, ListenersDone, Probed, Submit, Start, EndInput, InputFailed;
    ProbedRecords(t, e.id, e.stays);
  }

  lemma StartKeeps(t: Terminals, id: nat, live: bool, sendable: bool, record: RecordId)
    requires id in t.inputs && t.inputs[id].record in t.records && record in t.records
    ensures var after := Start(t, id, live, sendable).records;
            record in after && after[record].pty == t.records[record].pty && after[record].open == t.records[record].open
  {
    hide Log;
  }

  lemma InputExplained(t: Terminals, e: Event, record: RecordId)
    requires record in t.records && (e.StartInput? || e.InputDone? || e.SubmitInput?)
    ensures Explained(t, e, record)
  {
    hide PumpBreaks, PumpEnds, Gets, IsFirst;
    hide PushRecord, RemoveTerminal, DetachAll, OpenTerminal, PreviousClosed, Opened, OpenFailed, PumpFails;
    hide ReadAnswered, ListenersDone, Probed, Start, InputFailed;
    PumpIdle(t, e, record);
    if e.StartInput? && Enabled(t, e) {
      StartKeeps(t, e.id, e.live, e.sendable, record);
    }
  }

  lemma InputFailsRecords(t: Terminals, id: nat)
    requires id in t.inputs && t.inputs[id].record in t.records
    ensures var record := t.records[t.inputs[id].record];
            InputFailed(t, id).records
            == if record.pty != t.inputs[id].selected then t.records
               else t.records[t.inputs[id].record := record.(pty := None, pumpToken := record.pumpToken + 1)]
  {
    hide EndInput;
    if t.records[t.inputs[id].record].pty != t.inputs[id].selected {
      assert EndInput(t, id).records == t.records by {
        EndInputKeeps(t, id);
      }
    }
  }

  lemma EndInputKeeps(t: Terminals, id: nat)
    ensures EndInput(t, id).records == t.records
  {
  }

  lemma InputFailsExplained(t: Terminals, e: Event, record: RecordId)
    requires Inv(t) && record in t.records && e.InputError?
    ensures Explained(t, e, record)
  {
    if e.id in t.inputs {
      assert InputOk(e.id, t.inputs[e.id], t.records, t.owner, t.aimed);
    }
    hide Inv, PumpBreaks, PumpEnds, Gets;
    hide PushRecord, RemoveTerminal, DetachAll, OpenTerminal, PreviousClosed, Opened, OpenFailed, PumpFails;
    hide ReadAnswered, ListenersDone, Probed, Submit, Start, EndInput, InputFailed;
    PumpIdle(t, e, record);
    if Enabled(t, e) {
      InputFailsRecords(t, e.id);
    }
  }

  lemma OpenedExplained(t: Terminals, e: Event, record: RecordId)
    requires record in t.records && e.IsOpened?
    ensures Explained(t, e, record)
  {
    hide PumpBreaks, PumpEnds;
    hide PushRecord, RemoveTerminal, DetachAll, OpenTerminal, PreviousClosed, Opened, OpenFailed, PumpFails;
    hide ReadAnswered, ListenersDone, Probed, Submit, Start, EndInput, InputFailed;
    PumpIdle(t, e, record);
    if Enabled(t, e) {
      OpenedParts(t, e.id, e.channel, e.stale);
    }
  }

  lemma StopRecords(t: Terminals, id: RecordId)
    requires id in t.records
    ensures RemoveTerminal(t, id).records == t.records[id := Stopped(t.records[id]).(open := false)]
    ensures OpenTerminal(t, id).records == t.records[id := Stopped(t.records[id])]
  {
  }

  lemma RemoveExplained(t: Terminals, e: Event, record: RecordId)
    requires record in t.records && e.Remove?
    ensures Explained(t, e, record)
  {
    hide PumpBreaks, PumpEnds, Gets;
    if Enabled(t, e) {
      StopRecords(t, e.record);
    }
    hide PushRecord, RemoveTerminal, DetachAll, OpenTerminal, PreviousClosed, Opened, OpenFailed, PumpFails, ReadAnswered;
    hide ListenersDone, Probed, Submit, Start, EndInput, InputFailed;
    PumpIdle(t, e, record);
  }

  lemma DetachExplained(t: Terminals, e: Event, record: RecordId)
    requires record in t.records && e.Detach?
    ensures Explained(t, e, record)
  {
    hide PumpBreaks, PumpEnds, Gets;
    hide PushRecord, RemoveTerminal, OpenTerminal, PreviousClosed, Opened, OpenFailed, PumpFails, ReadAnswered;
    hide ListenersDone, Probed, Submit, Start, EndInput, InputFailed;
    PumpIdle(t, e, record);
  }

  lemma OpenExplained(t: Terminals, e: Event, record: RecordId)
    requires record in t.records && e.Open?
    ensures Explained(t, e, record)
  {
    hide PumpBreaks, PumpEnds, Gets;
    if Enabled(t, e) {
      StopRecords(t, e.record);
    }
    hide PushRecord, RemoveTerminal, DetachAll, OpenTerminal, PreviousClosed, Opened, OpenFailed, PumpFails, ReadAnswered;
    hide ListenersDone, Probed, Submit, Start, EndInput, InputFailed;
    PumpIdle(t, e, record);
  }

  lemma PushExplained(t: Terminals, e: Event, record: RecordId)
    requires Inv(t) && record in t.records && e.NewRecord?
    ensures Explained(t, e, record)
  {
    assert t.nextId !in t.records;
    hide Inv;
    hide PumpBreaks, PumpEnds, Gets;
    hide RemoveTerminal, DetachAll, OpenTerminal, PreviousClosed, Opened, OpenFailed, PumpFails, ReadAnswered;
    hide ListenersDone, Probed, Submit, Start, EndInput, InputFailed;
    PumpIdle(t, e, record);
  }

  lemma AttachExplained(t: Terminals, e: Event, record: RecordId)
    requires record in t.records && (e.CloseController? || e.PreviousIsClosed? || e.OpenFails?)
    ensures Explained(t, e, record)
  {
    hide PumpBreaks, PumpEnds, Gets;
    hide PushRecord, RemoveTerminal, DetachAll, OpenTerminal, Opened, PumpFails, ReadAnswered, ListenersDone;
    hide Probed, Submit, Start, EndInput, InputFailed;
    PumpIdle(t, e, record);
  }

  lemma IdleExplained(t: Terminals, e: Event, record: RecordId)
    requires Inv(t) && record in t.records && !Enabled(t, e) && (e.Read? || e.PumpError? || e.Listened? || e.ProbeDone?)
    ensures Explained(t, e, record)
  {
    if e.id in t.pumps {
      assert PumpOk(t.pumps[e.id], t.records, t.owner, t.delivered);
    }
    hide Inv, Log;
  }

  /** In every run a terminal gets, keeps or loses its PTY, and is kept or forgotten, by exactly
      these steps. */
  lemma PtyExactly(events: seq<Event>, e: Event, record: RecordId)
    requires record in Run(events).records
    ensures Explained(Run(events), e, record)
  {
    RunInv(events);
    RunPumped(events);
    hide Inv, PumpedOk, Run, Explained;
    if !Enabled(Run(events), e) && (e.Read? || e.PumpError? || e.Listened? || e.ProbeDone?) {
      IdleExplained(Run(events), e, record);
    } else {
      match e
      case Read(_, _, _) => ReadExplained(Run(events), e, record);
      case PumpError(_, _) => PumpErrorExplained(Run(events), e, record);
      case Listened(_) => ListenedExplained(Run(events), e, record);
      case ProbeDone(_, _) => ProbedExplained(Run(events), e, record);
      case SubmitInput(_) => InputExplained(Run(events), e, record);
      case StartInput(_, _, _) => InputExplained(Run(events), e, record);
      case InputDone(_) => InputExplained(Run(events), e, record);
      case InputError(_) => InputFailsExplained(Run(events), e, record);
      case IsOpened(_, _, _) => OpenedExplained(Run(events), e, record);
      case Remove(_) => RemoveExplained(Run(events), e, record);
      case Detach(_) => DetachExplained(Run(events), e, record);
      case Open(_) => OpenExplained(Run(events), e, record);
      case NewRecord => PushExplained(Run(events), e, record);
      case _ => AttachExplained(Run(events), e, record);
    }
  }
}
