/** Every run of the terminals of src/connectionController.ts. */
module TerminalPtysRuns {
  import opened Collections
  import opened TerminalPtys

  datatype Event =
    | NewRecord
    | Remove(record: RecordId)
    | Detach(forget: bool)
    | CloseController
    | Open(record: RecordId)
    | PreviousIsClosed(id: nat, stale: bool)
    | IsOpened(id: nat, channel: Channel, stale: bool)
    | OpenFails(id: nat)
    | Read(id: nat, answer: Answer, keep: bool)
    | PumpError(id: nat, keep: bool)
    | Listened(id: nat)
    | ProbeDone(id: nat, stays: bool)
    | SubmitInput(record: RecordId)
    | StartInput(id: nat, live: bool, sendable: bool)
    | InputDone(id: nat)
    | InputError(id: nat)

  /** The native side never names two channels alike. */
  predicate Enabled(t: Terminals, e: Event) {
    match e
    case Remove(record) => record in t.records
    case Open(record) => record in t.records && t.records[record].open
    case PreviousIsClosed(id, _) => id in t.attaches && t.attaches[id].record in t.records && !t.attaches[id].opening
    case IsOpened(id, channel, _) =>
      id in t.attaches && t.attaches[id].record in t.records && t.attaches[id].opening && channel !in t.owner
    case OpenFails(id) => id in t.attaches && t.attaches[id].opening
    case Read(id, _, _) => id in t.pumps && t.pumps[id].record in t.records && t.pumps[id].at.Reading?
    case PumpError(id, _) => id in t.pumps && t.pumps[id].record in t.records
    case Listened(id) => id in t.pumps && t.pumps[id].record in t.records && t.pumps[id].at.Delivering?
    case ProbeDone(id, _) => id in t.pumps && t.pumps[id].record in t.records && t.pumps[id].at.Probing?
    case SubmitInput(record) => record in t.records && t.records[record].open
    case StartInput(id, _, _) =>
      id in t.inputs && t.inputs[id].record in t.records && t.inputs[id].at.Queued? && IsFirst(t, id)
    case InputDone(id) => id in t.inputs && !t.inputs[id].at.Queued?
    case InputError(id) => id in t.inputs && t.inputs[id].record in t.records && t.inputs[id].at.Sending?
    case _ => true
  }

  function Next(t: Terminals, e: Event): Terminals {
    if !Enabled(t, e) then t
    else match e
      case NewRecord => PushRecord(t)
      case Remove(record) => RemoveTerminal(t, record)
      case Detach(forget) => DetachAll(t, forget)
      case CloseController => t.(disposed := true)
      case Open(record) => OpenTerminal(t, record)
      case PreviousIsClosed(id, stale) => PreviousClosed(t, id, stale)
      case IsOpened(id, channel, stale) => Opened(t, id, channel, stale)
      case OpenFails(id) => OpenFailed(t, id)
      case Read(id, answer, keep) => ReadAnswered(t, id, answer, keep)
      case PumpError(id, keep) => ReadFailed(t, id, keep)
      case Listened(id) => ListenersDone(t, id)
      case ProbeDone(id, stays) => Probed(t, id, stays)
      case SubmitInput(record) => Submit(t, record)
      case StartInput(id, live, sendable) => Start(t, id, live, sendable)
      case InputDone(id) => EndInput(t, id)
      case InputError(id) => InputFailed(t, id)
  }

  function Run(events: seq<Event>): Terminals {
    if events == [] then Init() else Next(Run(events[..|events| - 1]), events[|events| - 1])
  }

  // ----- the invariant, part by part -----

  type Records = map<RecordId, Record>
  type Owners = map<Channel, RecordId>

  /** A PTY knows its record, and the record how much it was sent. */
  ghost predicate RecordsOk(records: Records, owner: Owners, sent: map<Channel, seq<Sent>>) {
    forall id | id in records && records[id].pty.Some? ::
      var pty := records[id].pty.value;
      pty in owner && owner[pty] == id && records[id].operationSequence == |Log(sent, pty)|
  }

  predicate PumpOk(pump: Pump, records: Records, owner: Owners, delivered: map<Channel, seq<Delivered>>) {
    && pump.record in records && pump.channel in owner && owner[pump.channel] == pump.record
    && pump.token <= records[pump.record].pumpToken
    && (pump.token == records[pump.record].pumpToken ==>
          match pump.at
          case Reading => records[pump.record].readSequence == |Log(delivered, pump.channel)|
          case Delivering(sequence, _) => sequence == |Log(delivered, pump.channel)| == records[pump.record].readSequence + 1
          case Probing => true)
  }

  /** A record has one current pump, which knows how much was delivered. */
  ghost predicate PumpsOk(pumps: map<nat, Pump>, records: Records, owner: Owners, delivered: map<Channel, seq<Delivered>>) {
    && (forall id | id in pumps :: PumpOk(pumps[id], records, owner, delivered))
    && (forall i, j | i in pumps && j in pumps && pumps[i].record == pumps[j].record && pumps[i].token == pumps[j].token :: i == j)
  }

  predicate InputOk(id: nat, input: Input, records: Records, owner: Owners, aimed: map<nat, Option<Channel>>) {
    && id in aimed && aimed[id] == input.selected
    && input.record in records && input.queue <= records[input.record].queue
    && (input.selected.None? ==> input.at.Queued?)
    && (input.selected.Some? ==>
          && input.selected.value in owner && owner[input.selected.value] == input.record
          && (records[input.record].pty == input.selected ==> input.queue == records[input.record].queue))
  }

  ghost predicate InputsOk(inputs: map<nat, Input>, records: Records, owner: Owners, aimed: map<nat, Option<Channel>>) {
    forall id | id in inputs :: InputOk(id, inputs[id], records, owner, aimed)
  }

  /** Whether two operations wait in one line. */
  predicate SameQueue(a: Input, b: Input) {
    a.record == b.record && a.queue == b.queue
  }

  /** The input for one channel waits in one line, and only its first is under way. */
  ghost predicate LinesOk(inputs: map<nat, Input>) {
    && (forall i, j | i in inputs && j in inputs && i < j && SameQueue(inputs[i], inputs[j]) :: inputs[j].at.Queued?)
    && (forall i, j | i in inputs && j in inputs && inputs[i].selected.Some? && inputs[i].selected == inputs[j].selected ::
          SameQueue(inputs[i], inputs[j]))
  }

  /** What was sent came before what waits. */
  ghost predicate OrderOk(inputs: map<nat, Input>, sent: map<Channel, seq<Sent>>) {
    forall i | i in inputs && inputs[i].selected.Some? ::
      forall k | 0 <= k < |Log(sent, inputs[i].selected.value)| ::
        var before := Log(sent, inputs[i].selected.value)[k].input;
        before < i || (before == i && !inputs[i].at.Queued?)
  }

  /** What a channel was sent is numbered 1, 2, 3, ... in the order it was submitted, and was
      meant for it. */
  predicate SentOk(channel: Channel, sent: seq<Sent>, aimed: map<nat, Option<Channel>>) {
    && (forall k | 0 <= k < |sent| :: sent[k].sequence == k + 1)
    && (forall k, l | 0 <= k < l < |sent| :: sent[k].input < sent[l].input)
    && (forall k | 0 <= k < |sent| :: sent[k].input in aimed && aimed[sent[k].input] == Some(channel))
  }

  /** What the listeners got of a channel is numbered 1, 2, 3, ..., never empty, and came
      through the terminal that opened it. */
  predicate DeliveredOk(delivered: seq<Delivered>, owner: RecordId) {
    forall k | 0 <= k < |delivered| :: delivered[k].sequence == k + 1 && delivered[k].bytes != [] && delivered[k].to == owner
  }

  ghost predicate SentLogsOk(sent: map<Channel, seq<Sent>>, owner: Owners, aimed: map<nat, Option<Channel>>) {
    forall channel | channel in sent :: channel in owner && SentOk(channel, sent[channel], aimed)
  }

  ghost predicate DeliveredLogsOk(delivered: map<Channel, seq<Delivered>>, owner: Owners) {
    forall channel | channel in delivered :: channel in owner && DeliveredOk(delivered[channel], owner[channel])
  }

  ghost predicate FreshOk(t: Terminals) {
    && (forall id | id in t.records || id in t.attaches || id in t.pumps || id in t.inputs || id in t.aimed :: id < t.nextId)
    && (forall id | id in t.attaches :: t.attaches[id].record in t.records)
    && (forall channel | channel in t.owner :: t.owner[channel] in t.records)
  }

  ghost predicate Inv(t: Terminals) {
    && FreshOk(t) && RecordsOk(t.records, t.owner, t.sent) && PumpsOk(t.pumps, t.records, t.owner, t.delivered)
    && InputsOk(t.inputs, t.records, t.owner, t.aimed) && LinesOk(t.inputs) && OrderOk(t.inputs, t.sent)
    && SentLogsOk(t.sent, t.owner, t.aimed) && DeliveredLogsOk(t.delivered, t.owner)
  }

  // ----- every step keeps the invariant -----

  lemma PushInv(t: Terminals)
    requires Inv(t)
    ensures Inv(PushRecord(t))
  {
    var u := PushRecord(t);
    assert forall id | id in t.pumps :: PumpOk(t.pumps[id], t.records, t.owner, t.delivered) ==> PumpOk(t.pumps[id], u.records, t.owner, t.delivered);
    assert forall id | id in t.inputs :: InputOk(id, t.inputs[id], t.records, t.owner, t.aimed);
  }

  /** A record loses its PTY, or keeps it; its tokens only grow. */
  predicate Calmer(before: Record, after: Record) {
    && (after.pty.None? || after.pty == before.pty) && after.queue == before.queue
    && after.operationSequence == before.operationSequence && after.readSequence == before.readSequence
    && before.pumpToken <= after.pumpToken
  }

  lemma CalmerParts(t: Terminals, records: Records)
    requires Inv(t) && records.Keys == t.records.Keys
    requires forall id | id in records :: Calmer(t.records[id], records[id])
    ensures RecordsOk(records, t.owner, t.sent) && PumpsOk(t.pumps, records, t.owner, t.delivered)
    ensures InputsOk(t.inputs, records, t.owner, t.aimed)
  {
    forall id | id in t.pumps
      ensures PumpOk(t.pumps[id], records, t.owner, t.delivered)
    {
      assert PumpOk(t.pumps[id], t.records, t.owner, t.delivered);
    }
    forall id | id in t.inputs
      ensures InputOk(id, t.inputs[id], records, t.owner, t.aimed)
    {
      assert InputOk(id, t.inputs[id], t.records, t.owner, t.aimed);
    }
  }

  lemma CalmerInv(t: Terminals, records: Records, disposed: bool)
    requires Inv(t) && records.Keys == t.records.Keys
    requires forall id | id in records :: Calmer(t.records[id], records[id])
    ensures Inv(t.(records := records, disposed := disposed))
  {
    CalmerParts(t, records);
  }

  lemma OpenInv(t: Terminals, id: RecordId)
    requires Inv(t) && id in t.records
    ensures Inv(OpenTerminal(t, id))
  {
    CalmerInv(t, OpenTerminal(t, id).records, t.disposed);
  }

  lemma EndPumpInv(t: Terminals, id: nat)
    requires Inv(t)
    ensures Inv(EndPump(t, id))
  {
  }

  lemma EndInputInv(t: Terminals, id: nat)
    requires Inv(t)
    ensures Inv(EndInput(t, id))
  {
  }

  /** A new channel belongs to a record before anything was sent or delivered on it. */
  lemma OwnedParts(t: Terminals, channel: Channel, id: RecordId)
    requires Inv(t) && channel !in t.owner && id in t.records
    ensures Log(t.sent, channel) == [] && Log(t.delivered, channel) == []
    ensures var owner := t.owner[channel := id];
            && RecordsOk(t.records, owner, t.sent) && PumpsOk(t.pumps, t.records, owner, t.delivered)
            && InputsOk(t.inputs, t.records, owner, t.aimed)
            && SentLogsOk(t.sent, owner, t.aimed) && DeliveredLogsOk(t.delivered, owner)
  {
    var owner := t.owner[channel := id];
    forall i | i in t.pumps
      ensures PumpOk(t.pumps[i], t.records, owner, t.delivered)
    {
      assert PumpOk(t.pumps[i], t.records, t.owner, t.delivered);
    }
    forall i | i in t.inputs
      ensures InputOk(i, t.inputs[i], t.records, owner, t.aimed)
    {
      assert InputOk(i, t.inputs[i], t.records, t.owner, t.aimed);
    }
  }

  function Reopened(record: Record, channel: Channel): Record {
    record.(pty := Some(channel), readSequence := 0, operationSequence := 0, queue := record.queue + 1,
            pumpToken := record.pumpToken + 1)
  }

  lemma ReopenedPumps(t: Terminals, channel: Channel, id: RecordId, pumpId: nat)
    requires Inv(t) && channel !in t.owner && id in t.records && pumpId !in t.pumps
    ensures var record := Reopened(t.records[id], channel);
            PumpsOk(t.pumps[pumpId := Pump(id, record.pumpToken, channel, Reading)], t.records[id := record],
                    t.owner[channel := id], t.delivered)
  {
    OwnedParts(t, channel, id);
    var records := t.records[id := Reopened(t.records[id], channel)];
    forall i | i in t.pumps
      ensures PumpOk(t.pumps[i], records, t.owner[channel := id], t.delivered) && t.pumps[i].token <= t.records[t.pumps[i].record].pumpToken
    {
      assert PumpOk(t.pumps[i], t.records, t.owner[channel := id], t.delivered);
    }
  }

  lemma ReopenedInputs(t: Terminals, channel: Channel, id: RecordId)
    requires Inv(t) && channel !in t.owner && id in t.records
    ensures var records := t.records[id := Reopened(t.records[id], channel)];
            InputsOk(t.inputs, records, t.owner[channel := id], t.aimed) && RecordsOk(records, t.owner[channel := id], t.sent)
  {
    OwnedParts(t, channel, id);
    forall i | i in t.inputs
      ensures InputOk(i, t.inputs[i], t.records[id := Reopened(t.records[id], channel)], t.owner[channel := id], t.aimed)
    {
      assert InputOk(i, t.inputs[i], t.records, t.owner, t.aimed);
    }
  }

  lemma StaleOpenedInv(t: Terminals, id: nat, channel: Channel)
    requires Inv(t) && id in t.attaches && t.attaches[id].record in t.records && channel !in t.owner
    ensures Inv(t.(attaches := t.attaches - {id}, owner := t.owner[channel := t.attaches[id].record]))
  {
    OwnedParts(t, channel, t.attaches[id].record);
  }

  lemma ReopenedInv(t: Terminals, id: nat, channel: Channel)
    requires Inv(t) && id in t.attaches && t.attaches[id].record in t.records && channel !in t.owner
    ensures var record := t.attaches[id].record;
            var reopened := Reopened(t.records[record], channel);
            Inv(t.(attaches := t.attaches - {id}, owner := t.owner[channel := record], records := t.records[record := reopened],
                   pumps := t.pumps[t.nextId := Pump(record, reopened.pumpToken, channel, Reading)], nextId := t.nextId + 1))
  {
    OwnedParts(t, channel, t.attaches[id].record);
    ReopenedPumps(t, channel, t.attaches[id].record, t.nextId);
    ReopenedInputs(t, channel, t.attaches[id].record);
  }

  /** An attach that may use its PTY starts a new pump and a new queue on it. */
  lemma OpenedInv(t: Terminals, id: nat, channel: Channel, stale: bool)
    requires Inv(t) && id in t.attaches && t.attaches[id].record in t.records && channel !in t.owner
    ensures Inv(Opened(t, id, channel, stale))
  {
    hide Inv;
    if Superseded(t, t.attaches[id], stale) {
      StaleOpenedInv(t, id, channel);
    } else {
      ReopenedInv(t, id, channel);
    }
  }

  // ----- output -----

  lemma RecordInv(t: Terminals, id: RecordId, record: Record)
    requires Inv(t) && id in t.records && Calmer(t.records[id], record)
    ensures Inv(SetRecord(t, id, record))
  {
    CalmerInv(t, t.records[id := record], t.disposed);
  }

  /** A record changes for the calmer as one of its pumps ends. */
  lemma RecordEndInv(t: Terminals, record: RecordId, after: Record, id: nat)
    requires Inv(t) && record in t.records && Calmer(t.records[record], after)
    ensures Inv(EndPump(SetRecord(t, record, after), id))
  {
    RecordInv(t, record, after);
    EndPumpInv(SetRecord(t, record, after), id);
  }

  lemma PumpFailsInv(t: Terminals, id: nat, pump: Pump, keep: bool)
    requires Inv(t) && id in t.pumps && pump.record == t.pumps[id].record && pump.record in t.records
    ensures Inv(PumpFails(t, id, pump, keep))
  {
    hide Inv;
    var record := t.records[pump.record];
    if !Current(t, pump) {
      EndPumpInv(t, id);
    } else if keep {
      RecordEndInv(t, pump.record, record.(pty := None, pumpToken := record.pumpToken + 1), id);
    } else {
      RecordEndInv(t, pump.record, Stopped(record).(open := false), id);
    }
  }

  /** A pump of the same record and token goes on where its record says. */
  lemma PumpInv(t: Terminals, id: nat, pump: Pump)
    requires Inv(t) && id in t.pumps && pump == t.pumps[id].(at := pump.at)
    requires PumpOk(pump, t.records, t.owner, t.delivered)
    ensures Inv(t.(pumps := t.pumps[id := pump]))
  {
  }

  lemma EndOfFileInv(t: Terminals, id: nat, pump: Pump)
    requires Inv(t) && id in t.pumps && pump == t.pumps[id] && pump.record in t.records
    ensures Inv(EndOfFile(t, id, pump))
  {
    assert PumpOk(pump, t.records, t.owner, t.delivered);
    var cleared := SetRecord(t, pump.record, t.records[pump.record].(pty := None));
    RecordInv(t, pump.record, t.records[pump.record].(pty := None));
    PumpInv(cleared, id, pump.(at := Probing));
  }

  lemma ReadOnInv(t: Terminals, id: nat, pump: Pump)
    requires Inv(t) && id in t.pumps && pump == t.pumps[id] && pump.record in t.records && pump.at.Reading?
    ensures Inv(ReadOn(t, id, pump))
  {
    EndPumpInv(t, id);
    assert t.pumps[id := pump.(at := Reading)] == t.pumps;
  }

  /** An accepted chunk is the next one of its channel. */
  lemma DeliverInv(t: Terminals, id: nat, answer: Answer)
    requires Inv(t) && id in t.pumps && t.pumps[id].record in t.records && t.pumps[id].at.Reading? && Current(t, t.pumps[id])
    requires Acceptable(t.records[t.pumps[id].record], answer) && answer.bytes != []
    ensures Inv(ReadAnswered(t, id, answer, false))
  {
    var pump := t.pumps[id];
    var log := Log(t.delivered, pump.channel) + [Delivered(answer.sequence, answer.bytes, pump.record)];
    var delivered := t.delivered[pump.channel := log];
    var pumps := t.pumps[id := pump.(at := Delivering(answer.sequence, answer.eof))];
    assert PumpOk(pump, t.records, t.owner, t.delivered);
    forall i | i in pumps
      ensures PumpOk(pumps[i], t.records, t.owner, delivered)
    {
      assert PumpOk(t.pumps[i], t.records, t.owner, t.delivered);
    }
    assert DeliveredOk(log, pump.record);
  }

  lemma ReadAnsweredInv(t: Terminals, id: nat, answer: Answer, keep: bool)
    requires Inv(t) && id in t.pumps && t.pumps[id].record in t.records && t.pumps[id].at.Reading?
    ensures Inv(ReadAnswered(t, id, answer, keep))
  {
    hide Inv;
    var pump := t.pumps[id];
    var record := t.records[pump.record];
    if !Current(t, pump) {
      EndPumpInv(t, id);
    } else if !Acceptable(record, answer) {
      PumpFailsInv(t, id, pump, keep);
    } else if answer.sequence == record.readSequence + 1 {
      DeliverInv(t, id, answer);
    } else if answer.eof {
      EndOfFileInv(t, id, pump);
    } else {
      ReadOnInv(t, id, pump);
    }
  }

  /** The current pump of a record counts the chunk its listeners have had. */
  lemma NotedPumps(t: Terminals, id: nat, at: PumpAt, record: Record)
    requires Inv(t) && id in t.pumps && t.pumps[id].record in t.records && t.pumps[id].at.Delivering? && Current(t, t.pumps[id])
    requires record == t.records[t.pumps[id].record].(readSequence := t.pumps[id].at.sequence, pty := record.pty)
    requires at == Reading || at == Probing
    ensures PumpsOk(t.pumps[id := t.pumps[id].(at := at)], t.records[t.pumps[id].record := record], t.owner, t.delivered)
  {
    var pump := t.pumps[id];
    var pumps := t.pumps[id := pump.(at := at)];
    assert PumpOk(pump, t.records, t.owner, t.delivered);
    forall i | i in pumps
      ensures PumpOk(pumps[i], t.records[pump.record := record], t.owner, t.delivered)
    {
      assert PumpOk(t.pumps[i], t.records, t.owner, t.delivered);
    }
  }

  lemma NotedInputs(t: Terminals, id: RecordId, record: Record)
    requires Inv(t) && id in t.records
    requires record == t.records[id].(readSequence := record.readSequence, pty := record.pty)
    requires record.pty.None? || record.pty == t.records[id].pty
    ensures InputsOk(t.inputs, t.records[id := record], t.owner, t.aimed) && RecordsOk(t.records[id := record], t.owner, t.sent)
  {
    forall i | i in t.inputs
      ensures InputOk(i, t.inputs[i], t.records[id := record], t.owner, t.aimed)
    {
      assert InputOk(i, t.inputs[i], t.records, t.owner, t.aimed);
    }
  }

  lemma NotedInv(t: Terminals, id: nat, at: PumpAt, record: Record)
    requires Inv(t) && id in t.pumps && t.pumps[id].record in t.records && t.pumps[id].at.Delivering? && Current(t, t.pumps[id])
    requires record == t.records[t.pumps[id].record].(readSequence := t.pumps[id].at.sequence, pty := record.pty)
    requires at == Reading || at == Probing
    requires record.pty.None? || record.pty == t.records[t.pumps[id].record].pty
    ensures Inv(t.(records := t.records[t.pumps[id].record := record], pumps := t.pumps[id := t.pumps[id].(at := at)]))
  {
    NotedPumps(t, id, at, record);
    NotedInputs(t, t.pumps[id].record, record);
  }

  lemma ListenersDoneInv(t: Terminals, id: nat)
    requires Inv(t) && id in t.pumps && t.pumps[id].record in t.records && t.pumps[id].at.Delivering?
    ensures Inv(ListenersDone(t, id))
  {
    hide Inv;
    var pump := t.pumps[id];
    var record := t.records[pump.record].(readSequence := pump.at.sequence);
    if !Current(t, pump) {
      EndPumpInv(t, id);
    } else if pump.at.eof {
      NotedInv(t, id, Probing, record.(pty := None));
      assert t.records[pump.record := record][pump.record := record.(pty := None)] == t.records[pump.record := record.(pty := None)];
    } else {
      ListenedInv(t, id, record);
    }
  }

  lemma ListenedInv(t: Terminals, id: nat, record: Record)
    requires Inv(t) && id in t.pumps && t.pumps[id].record in t.records && t.pumps[id].at.Delivering? && Current(t, t.pumps[id])
    requires record == t.records[t.pumps[id].record].(readSequence := t.pumps[id].at.sequence)
    ensures Inv(ReadOn(SetRecord(t, t.pumps[id].record, record), id, t.pumps[id]))
  {
    hide Inv;
    var pump := t.pumps[id];
    NotedInv(t, id, Reading, record);
    var read := t.(records := t.records[pump.record := record], pumps := t.pumps[id := pump.(at := Reading)]);
    EndPumpInv(read, id);
    assert read.pumps - {id} == t.pumps - {id};
  }

  lemma ProbedInv(t: Terminals, id: nat, stays: bool)
    requires Inv(t) && id in t.pumps && t.pumps[id].record in t.records
    ensures Inv(Probed(t, id, stays))
  {
    hide Inv;
    var record := t.pumps[id].record;
    EndPumpInv(t, id);
    RecordInv(t, record, Stopped(t.records[record]).(open := false));
    EndPumpInv(RemoveTerminal(t, record), id);
  }

  // ----- input -----

  lemma SubmitParts(t: Terminals, id: RecordId)
    requires Inv(t) && id in t.records
    ensures var u := Submit(t, id);
            InputsOk(u.inputs, t.records, t.owner, u.aimed) && LinesOk(u.inputs) && SentLogsOk(t.sent, t.owner, u.aimed)
  {
    var u := Submit(t, id);
    forall i | i in u.inputs
      ensures InputOk(i, u.inputs[i], t.records, t.owner, u.aimed)
      ensures i != t.nextId ==> i < t.nextId
    {
      if i != t.nextId {
        assert InputOk(i, t.inputs[i], t.records, t.owner, t.aimed);
      }
    }
  }

  lemma SubmitOrder(t: Terminals, id: RecordId)
    requires Inv(t) && id in t.records
    ensures OrderOk(Submit(t, id).inputs, t.sent)
  {
    forall channel, k | channel in t.sent && 0 <= k < |t.sent[channel]|
      ensures t.sent[channel][k].input < t.nextId
    {
      assert SentOk(channel, t.sent[channel], t.aimed);
    }
  }

  lemma SubmitInv(t: Terminals, id: RecordId)
    requires Inv(t) && id in t.records
    ensures Inv(Submit(t, id))
  {
    SubmitParts(t, id);
    SubmitOrder(t, id);
  }

  /** The first operation of its queue goes out under the next number of its PTY. */
  predicate Sends(t: Terminals, id: nat, channel: Channel) {
    && id in t.inputs && t.inputs[id].at.Queued? && t.inputs[id].record in t.records && t.inputs[id].selected == Some(channel)
    && t.records[t.inputs[id].record].pty == Some(channel)
  }

  lemma SendLogs(t: Terminals, id: nat, channel: Channel)
    requires Inv(t) && Sends(t, id, channel)
    ensures channel in t.owner && t.owner[channel] == t.inputs[id].record
    ensures SentLogsOk(t.sent[channel := Log(t.sent, channel) + [Sent(|Log(t.sent, channel)| + 1, id)]], t.owner, t.aimed)
  {
    var log := Log(t.sent, channel);
    assert InputOk(id, t.inputs[id], t.records, t.owner, t.aimed);
    if channel in t.sent {
      assert SentOk(channel, t.sent[channel], t.aimed);
    }
    assert forall k | 0 <= k < |log| :: log[k].input < id;
    assert SentOk(channel, log + [Sent(|log| + 1, id)], t.aimed);
  }

  lemma SendRecords(t: Terminals, id: nat, channel: Channel)
    requires Inv(t) && Sends(t, id, channel)
    ensures var record := t.records[t.inputs[id].record].(operationSequence := |Log(t.sent, channel)| + 1);
            var records := t.records[t.inputs[id].record := record];
            && RecordsOk(records, t.owner, t.sent[channel := Log(t.sent, channel) + [Sent(|Log(t.sent, channel)| + 1, id)]])
            && PumpsOk(t.pumps, records, t.owner, t.delivered)
  {
    var record := t.records[t.inputs[id].record].(operationSequence := |Log(t.sent, channel)| + 1);
    assert InputOk(id, t.inputs[id], t.records, t.owner, t.aimed);
    forall i | i in t.pumps
      ensures PumpOk(t.pumps[i], t.records[t.inputs[id].record := record], t.owner, t.delivered)
    {
      assert PumpOk(t.pumps[i], t.records, t.owner, t.delivered);
    }
  }

  /** Every other operation for the same PTY comes later. */
  lemma FirstOfChannel(t: Terminals, id: nat, channel: Channel, i: nat)
    requires Inv(t) && Sends(t, id, channel) && IsFirst(t, id)
    requires i in t.inputs && i != id && t.inputs[i].selected == Some(channel)
    ensures id < i
  {
    assert SameQueue(t.inputs[i], t.inputs[id]);
  }

  lemma SendOrder(t: Terminals, id: nat, channel: Channel, sequence: nat)
    requires Inv(t) && Sends(t, id, channel) && IsFirst(t, id)
    ensures OrderOk(t.inputs[id := t.inputs[id].(at := Sending(sequence))],
                    t.sent[channel := Log(t.sent, channel) + [Sent(sequence, id)]])
  {
    var inputs := t.inputs[id := t.inputs[id].(at := Sending(sequence))];
    var sent := t.sent[channel := Log(t.sent, channel) + [Sent(sequence, id)]];
    forall i, k | i in inputs && inputs[i].selected.Some? && 0 <= k < |Log(sent, inputs[i].selected.value)|
      ensures var before := Log(sent, inputs[i].selected.value)[k].input; before < i || (before == i && !inputs[i].at.Queued?)
    {
      if i != id && inputs[i].selected == Some(channel) {
        FirstOfChannel(t, id, channel, i);
      }
      if k < |Log(t.sent, inputs[i].selected.value)| {
        assert Log(sent, inputs[i].selected.value)[k] == Log(t.sent, t.inputs[i].selected.value)[k];
      }
    }
  }

  lemma SendInputs(t: Terminals, id: nat, channel: Channel, sequence: nat)
    requires Inv(t) && Sends(t, id, channel) && IsFirst(t, id)
    ensures var records := t.records[t.inputs[id].record := t.records[t.inputs[id].record].(operationSequence := sequence)];
            var inputs := t.inputs[id := t.inputs[id].(at := Sending(sequence))];
            InputsOk(inputs, records, t.owner, t.aimed) && LinesOk(inputs)
  {
    var record := t.records[t.inputs[id].record].(operationSequence := sequence);
    var inputs := t.inputs[id := t.inputs[id].(at := Sending(sequence))];
    forall i | i in inputs
      ensures InputOk(i, inputs[i], t.records[t.inputs[id].record := record], t.owner, t.aimed)
    {
      assert InputOk(i, t.inputs[i], t.records, t.owner, t.aimed);
    }
  }

  function OnTheWay(t: Terminals, id: nat, channel: Channel): Terminals
    requires Sends(t, id, channel)
  {
    var sequence := |Log(t.sent, channel)| + 1;
    t.(records := t.records[t.inputs[id].record := t.records[t.inputs[id].record].(operationSequence := sequence)],
       inputs := t.inputs[id := t.inputs[id].(at := Sending(sequence))],
       sent := t.sent[channel := Log(t.sent, channel) + [Sent(sequence, id)]])
  }

  lemma SendInv(t: Terminals, id: nat, channel: Channel)
    requires Inv(t) && Sends(t, id, channel) && IsFirst(t, id)
    ensures Inv(OnTheWay(t, id, channel))
  {
    hide RecordsOk, PumpsOk, InputsOk, LinesOk, OrderOk, SentLogsOk, DeliveredLogsOk;
    SendLogs(t, id, channel);
    SendRecords(t, id, channel);
    SendInputs(t, id, channel, |Log(t.sent, channel)| + 1);
    SendOrder(t, id, channel, |Log(t.sent, channel)| + 1);
  }

  lemma SequenceKnown(t: Terminals, id: nat, channel: Channel)
    requires Inv(t) && Sends(t, id, channel)
    ensures t.records[t.inputs[id].record].operationSequence == |Log(t.sent, channel)|
  {
  }

  lemma StartInv(t: Terminals, id: nat, live: bool, sendable: bool)
    requires Inv(t) && id in t.inputs && t.inputs[id].record in t.records && t.inputs[id].at.Queued? && IsFirst(t, id)
    ensures Inv(Start(t, id, live, sendable))
  {
    hide Inv;
    var input := t.inputs[id];
    var record := t.records[input.record];
    if record.pty != input.selected || record.pty.None? || !record.open || !live || !sendable {
      EndInputInv(t, id);
    } else {
      SequenceKnown(t, id, record.pty.value);
      SendInv(t, id, record.pty.value);
    }
  }

  lemma InputFailedInv(t: Terminals, id: nat)
    requires Inv(t) && id in t.inputs && t.inputs[id].record in t.records && t.inputs[id].at.Sending?
    ensures Inv(InputFailed(t, id))
  {
    hide Inv;
    var input := t.inputs[id];
    var record := t.records[input.record];
    if record.pty != input.selected {
      EndInputInv(t, id);
    } else {
      AbandonInv(t, id);
      var abandoned := t.(inputs := t.inputs[id := input.(at := Abandoning)]);
      RecordInv(abandoned, input.record, record.(pty := None, pumpToken := record.pumpToken + 1));
    }
  }

  lemma AbandonInv(t: Terminals, id: nat)
    requires Inv(t) && id in t.inputs && t.inputs[id].at.Sending?
    ensures Inv(t.(inputs := t.inputs[id := t.inputs[id].(at := Abandoning)]))
  {
    assert InputOk(id, t.inputs[id], t.records, t.owner, t.aimed);
  }

  lemma AttachInv(t: Terminals, attaches: map<nat, Attach>)
    requires Inv(t) && attaches.Keys <= t.attaches.Keys
    requires forall id | id in attaches :: attaches[id].record == t.attaches[id].record
    ensures Inv(t.(attaches := attaches))
  {
  }

  lemma DetachInv(t: Terminals, forget: bool)
    requires Inv(t)
    ensures Inv(DetachAll(t, forget))
  {
    hide Inv;
    var records := DetachAll(t, forget).records;
    assert forall id | id in records :: Calmer(t.records[id], records[id]);
    assert records.Keys == t.records.Keys;
    CalmerInv(t, records, t.disposed);
    assert t.(records := records, disposed := t.disposed) == DetachAll(t, forget);
  }

  lemma TerminalInv(t: Terminals, e: Event)
    requires Inv(t) && Enabled(t, e)
    requires e.NewRecord? || e.Remove? || e.Detach? || e.CloseController? || e.Open? || e.PreviousIsClosed? || e.OpenFails?
    ensures Inv(Next(t, e))
  {
    hide Inv;
    match e
    case NewRecord => PushInv(t);
    case Remove(record) => RecordInv(t, record, Stopped(t.records[record]).(open := false));
    case Detach(forget) => DetachInv(t, forget);
    case CloseController => CalmerInv(t, t.records, true);
    case Open(record) => OpenInv(t, record);
    case PreviousIsClosed(id, stale) => AttachInv(t, PreviousClosed(t, id, stale).attaches);
    case OpenFails(id) => AttachInv(t, OpenFailed(t, id).attaches);
  }

  lemma NextInv(t: Terminals, e: Event)
    requires Inv(t)
    ensures Inv(Next(t, e))
  {
    hide Inv;
    if Enabled(t, e) {
      match e
      case IsOpened(id, channel, stale) => OpenedInv(t, id, channel, stale);
      case Read(id, answer, keep) => ReadAnsweredInv(t, id, answer, keep);
      case PumpError(id, keep) => PumpFailsInv(t, id, t.pumps[id], keep);
      case Listened(id) => ListenersDoneInv(t, id);
      case ProbeDone(id, stays) => ProbedInv(t, id, stays);
      case SubmitInput(record) => SubmitInv(t, record);
      case StartInput(id, live, sendable) => StartInv(t, id, live, sendable);
      case InputDone(id) => EndInputInv(t, id);
      case InputError(id) => InputFailedInv(t, id);
      case _ => TerminalInv(t, e);
    }
  }

  lemma {:induction false} RunInv(events: seq<Event>)
    ensures Inv(Run(events))
  {
    if events != [] {
      RunInv(events[..|events| - 1]);
      NextInv(Run(events[..|events| - 1]), events[|events| - 1]);
    }
  }

  // ----- what the runs mean -----

  /** The listeners get the chunks 1, 2, 3, ... of a PTY, none missing, repeated or empty,
      under the terminal that opened it. */
  lemma OutputInOrder(events: seq<Event>, channel: Channel, k: nat)
    requires k < |Log(Run(events).delivered, channel)|
    ensures var t := Run(events);
            var chunk := Log(t.delivered, channel)[k];
            chunk.sequence == k + 1 && chunk.bytes != [] && channel in t.owner && chunk.to == t.owner[channel]
  {
    RunInv(events);
    assert DeliveredOk(Run(events).delivered[channel], Run(events).owner[channel]);
  }

  /** A PTY is sent 1, 2, 3, ... in the order of submission, each once the one before has
      settled: only the last can be outstanding. */
  lemma InputInOrder(events: seq<Event>, channel: Channel, k: nat)
    requires k < |Log(Run(events).sent, channel)|
    ensures var sent := Log(Run(events).sent, channel);
            && sent[k].sequence == k + 1
            && (k + 1 < |sent| ==> sent[k].input < sent[k + 1].input && sent[k].input !in Run(events).inputs)
  {
    RunInv(events);
    var t := Run(events);
    var sent := Log(t.sent, channel);
    assert SentOk(channel, sent, t.aimed);
    assert sent[k].input in t.inputs ==> InputOk(sent[k].input, t.inputs[sent[k].input], t.records, t.owner, t.aimed);
  }

  lemma {:induction false} AimedStays(events: seq<Event>, j: nat, id: nat)
    requires j <= |events| && id in Run(events[..j]).aimed
    ensures id in Run(events).aimed && Run(events).aimed[id] == Run(events[..j]).aimed[id]
  {
    if j == |events| {
      assert events[..j] == events;
    } else {
      var before := events[..|events| - 1];
      assert before[..j] == events[..j];
      AimedStays(before, j, id);
      RunInv(before);
      AimedNext(Run(before), events[|events| - 1], id);
    }
  }

  lemma AimedNext(t: Terminals, e: Event, id: nat)
    requires Inv(t) && id in t.aimed
    ensures id in Next(t, e).aimed && Next(t, e).aimed[id] == t.aimed[id]
  {
    if e.SubmitInput? {
      assert id < t.nextId;
    } else {
      AimedSame(t, e);
    }
  }

  /** Only a submission says what is aimed where. */
  lemma AimedSame(t: Terminals, e: Event)
    requires !e.SubmitInput?
    ensures Next(t, e).aimed == t.aimed
  {
    if Enabled(t, e) {
      hide PushRecord, RemoveTerminal, DetachAll, OpenTerminal, PreviousClosed, Opened, OpenFailed;
      hide PumpFails, ReadAnswered, ListenersDone, Probed, Start, EndInput, InputFailed;
      match e
      case _ =>
    }
  }

  /** Input submitted for one PTY never reaches another. */
  lemma InputReachesItsOwn(events: seq<Event>, j: nat, record: RecordId, channel: Channel, k: nat)
    requires j < |events| && events[j] == SubmitInput(record) && Enabled(Run(events[..j]), events[j])
    requires k < |Log(Run(events).sent, channel)| && Log(Run(events).sent, channel)[k].input == Run(events[..j]).nextId
    ensures Run(events[..j]).records[record].pty == Some(channel)
  {
    var id := Run(events[..j]).nextId;
    assert events[..j + 1][..j] == events[..j];
    assert Run(events[..j + 1]).aimed[id] == Run(events[..j]).records[record].pty;
    AimedStays(events, j + 1, id);
    RunInv(events);
    assert SentOk(channel, Run(events).sent[channel], Run(events).aimed);
  }
}
