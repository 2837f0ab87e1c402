/** src/connectionController.ts: the terminals of a connection, their output pumps and
    their input queues.

    A suspended attach, pump or input operation is a task; the code it runs when its
    answer arrives is one step. Every channel the native side opens is a new one. */
module TerminalPtys {
  import opened Collections

  type RecordId = nat

  type Channel = nat

  type Bytes = seq<bv8>

  /** `queue` counts the operation queues: opening a PTY starts a fresh one. */
  datatype Record = Record(
    open: bool, pty: Option<Channel>, readSequence: nat, operationSequence: nat, queue: nat,
    pumpToken: nat, attachToken: nat)

  datatype Attach = Attach(record: RecordId, token: nat, opening: bool)

  datatype PumpAt = Reading | Delivering(sequence: nat, eof: bool) | Probing

  datatype Pump = Pump(record: RecordId, token: nat, channel: Channel, at: PumpAt)

  datatype InputAt = Queued | Sending(sequence: nat) | Abandoning

  /** A write or resize; `selected` is the PTY its caller was looking at. */
  datatype Input = Input(record: RecordId, selected: Option<Channel>, queue: nat, at: InputAt)

  datatype Delivered = Delivered(sequence: nat, bytes: Bytes, to: RecordId)

  datatype Sent = Sent(sequence: nat, input: nat)

  /** `delivered` is what the output listeners got of a channel, `sent` what it was sent,
      and `aimed` the PTY each operation was submitted for. */
  datatype Terminals = Terminals(
    disposed: bool, records: map<RecordId, Record>, attaches: map<nat, Attach>, pumps: map<nat, Pump>, inputs: map<nat, Input>,
    nextId: nat, owner: map<Channel, RecordId>, delivered: map<Channel, seq<Delivered>>, sent: map<Channel, seq<Sent>>,
    aimed: map<nat, Option<Channel>>)

  function Init(): Terminals {
    Terminals(false, map[], map[], map[], map[], 0, map[], map[], map[], map[])
  }

  function Log<T>(logs: map<Channel, seq<T>>, channel: Channel): seq<T> {
    if channel in logs then logs[channel] else []
  }

  function SetRecord(t: Terminals, id: RecordId, record: Record): Terminals {
    t.(records := t.records[id := record])
  }

  /** Nothing was sent, delivered or submitted. */
  predicate SameLogs(t: Terminals, u: Terminals) {
    u.sent == t.sent && u.delivered == t.delivered && u.aimed == t.aimed
  }

  // ----- records -----

  function PushRecord(t: Terminals): (u: Terminals)
    ensures SameLogs(t, u)
  {
    t.(records := t.records[t.nextId := Record(true, None, 0, 0, 0, 0, 0)], nextId := t.nextId + 1)
  }

  /** Stop the pump and any attach of a record. */
  function Stopped(record: Record): Record {
    record.(pty := None, pumpToken := record.pumpToken + 1, attachToken := record.attachToken + 1)
  }

  function RemoveTerminal(t: Terminals, id: RecordId): (u: Terminals)
    requires id in t.records
    ensures SameLogs(t, u)
  {
    SetRecord(t, id, Stopped(t.records[id]).(open := false))
  }

  /** `detachTerminalsFromTransport`; `closeAllTerminals` also forgets the terminals. */
  function DetachAll(t: Terminals, forget: bool): (u: Terminals)
    ensures SameLogs(t, u)
  {
    t.(records := map id | id in t.records ::
         if t.records[id].open then Stopped(t.records[id]).(open := !forget) else t.records[id])
  }

  // ----- attaching -----

  function OpenTerminal(t: Terminals, id: RecordId): (u: Terminals)
    requires id in t.records
    ensures SameLogs(t, u)
  {
    var record := t.records[id].(attachToken := t.records[id].attachToken + 1, pumpToken := t.records[id].pumpToken + 1, pty := None);
    SetRecord(t, id, record).(attaches := t.attaches[t.nextId := Attach(id, record.attachToken, false)], nextId := t.nextId + 1)
  }

  /** `stale` when the connection is no longer the current generation. */
  predicate Superseded(t: Terminals, attach: Attach, stale: bool)
    requires attach.record in t.records
  {
    attach.token != t.records[attach.record].attachToken || !t.records[attach.record].open || stale
  }

  function PreviousClosed(t: Terminals, id: nat, stale: bool): (u: Terminals)
    requires id in t.attaches && t.attaches[id].record in t.records
    ensures SameLogs(t, u)
  {
    if Superseded(t, t.attaches[id], stale) then t.(attaches := t.attaches - {id})
    else t.(attaches := t.attaches[id := t.attaches[id].(opening := true)])
  }

  function Opened(t: Terminals, id: nat, channel: Channel, stale: bool): (u: Terminals)
    requires id in t.attaches && t.attaches[id].record in t.records && channel !in t.owner
    ensures SameLogs(t, u)
  {
    var attach := t.attaches[id];
    var done := t.(attaches := t.attaches - {id}, owner := t.owner[channel := attach.record]);
    if Superseded(t, attach, stale) then done
    else
      var previous := t.records[attach.record];
      var record := previous.(pty := Some(channel), readSequence := 0, operationSequence := 0, queue := previous.queue + 1,
                          pumpToken := previous.pumpToken + 1);
      SetRecord(done, attach.record, record)
      .(pumps := t.pumps[t.nextId := Pump(attach.record, record.pumpToken, channel, Reading)], nextId := t.nextId + 1)
  }

  function OpenFailed(t: Terminals, id: nat): (u: Terminals)
    ensures SameLogs(t, u)
  {
    t.(attaches := t.attaches - {id})
  }

  // ----- pumping -----

  predicate Current(t: Terminals, pump: Pump)
    requires pump.record in t.records
  {
    !t.disposed && pump.token == t.records[pump.record].pumpToken
  }

  function EndPump(t: Terminals, id: nat): Terminals {
    t.(pumps := t.pumps - {id})
  }

  /** The head of the pump's loop. */
  function ReadOn(t: Terminals, id: nat, pump: Pump): (u: Terminals)
    requires pump.record in t.records
    ensures SameLogs(t, u)
  {
    if Current(t, pump) && t.records[pump.record].pty == Some(pump.channel)
    then t.(pumps := t.pumps[id := pump.(at := Reading)])
    else EndPump(t, id)
  }

  /** The pump's `catch`; `keep` when the terminal stays for a reconnect. */
  function PumpFails(t: Terminals, id: nat, pump: Pump, keep: bool): (u: Terminals)
    requires pump.record in t.records
    ensures SameLogs(t, u)
  {
    var record := t.records[pump.record];
    if !Current(t, pump) then EndPump(t, id)
    else if keep then EndPump(SetRecord(t, pump.record, record.(pty := None, pumpToken := record.pumpToken + 1)), id)
    else EndPump(RemoveTerminal(t, pump.record), id)
  }

  function EndOfFile(t: Terminals, id: nat, pump: Pump): (u: Terminals)
    requires pump.record in t.records
    ensures SameLogs(t, u)
  {
    SetRecord(t, pump.record, t.records[pump.record].(pty := None)).(pumps := t.pumps[id := pump.(at := Probing)])
  }

  /** What one `readPty` may answer; `garbled` when it names another request. */
  datatype Answer = Answer(garbled: bool, sequence: nat, bytes: Bytes, eof: bool)

  predicate Acceptable(record: Record, answer: Answer) {
    && !answer.garbled
    && (answer.sequence == record.readSequence || answer.sequence == record.readSequence + 1)
    && (answer.sequence == record.readSequence <==> answer.bytes == [])
  }

  function ReadAnswered(t: Terminals, id: nat, answer: Answer, keep: bool): (u: Terminals)
    requires id in t.pumps && t.pumps[id].record in t.records
    ensures u.aimed == t.aimed && u.sent == t.sent
  {
    var pump := t.pumps[id];
    var record := t.records[pump.record];
    if !Current(t, pump) then EndPump(t, id)
    else if !Acceptable(record, answer) then PumpFails(t, id, pump, keep)
    else if answer.sequence == record.readSequence + 1 then
      t.(delivered := t.delivered[pump.channel := Log(t.delivered, pump.channel) + [Delivered(answer.sequence, answer.bytes, pump.record)]],
         pumps := t.pumps[id := pump.(at := Delivering(answer.sequence, answer.eof))])
    else if answer.eof then EndOfFile(t, id, pump)
    else ReadOn(t, id, pump)
  }

  function ReadFailed(t: Terminals, id: nat, keep: bool): Terminals
    requires id in t.pumps && t.pumps[id].record in t.records
  {
    PumpFails(t, id, t.pumps[id], keep)
  }

  /** The listeners are done with a chunk. */
  function ListenersDone(t: Terminals, id: nat): (u: Terminals)
    requires id in t.pumps && t.pumps[id].record in t.records && t.pumps[id].at.Delivering?
    ensures SameLogs(t, u)
  {
    var pump := t.pumps[id];
    if !Current(t, pump) then EndPump(t, id)
    else
      var noted := SetRecord(t, pump.record, t.records[pump.record].(readSequence := pump.at.sequence));
      if pump.at.eof then EndOfFile(noted, id, pump) else ReadOn(noted, id, pump)
  }

  /** After an EOF: the terminal goes unless its transport is lost or in the background. */
  function Probed(t: Terminals, id: nat, stays: bool): (u: Terminals)
    requires id in t.pumps && t.pumps[id].record in t.records
    ensures SameLogs(t, u)
  {
    if !Current(t, t.pumps[id]) || stays then EndPump(t, id) else EndPump(RemoveTerminal(t, t.pumps[id].record), id)
  }

  // ----- input -----

  function Submit(t: Terminals, id: RecordId): Terminals
    requires id in t.records
  {
    t.(inputs := t.inputs[t.nextId := Input(id, t.records[id].pty, t.records[id].queue, Queued)],
       aimed := t.aimed[t.nextId := t.records[id].pty], nextId := t.nextId + 1)
  }

  /** Every earlier operation of the same queue has settled. */
  predicate IsFirst(t: Terminals, id: nat)
    requires id in t.inputs
  {
    forall other | other in t.inputs && other < id ::
      t.inputs[other].record != t.inputs[id].record || t.inputs[other].queue != t.inputs[id].queue
  }

  function EndInput(t: Terminals, id: nat): (u: Terminals)
    ensures SameLogs(t, u)
  {
    t.(inputs := t.inputs - {id})
  }

  /** `live` is the controller's phase; `sendable` is false for empty input or a bad size. */
  function Start(t: Terminals, id: nat, live: bool, sendable: bool): (u: Terminals)
    requires id in t.inputs && t.inputs[id].record in t.records
    ensures u.aimed == t.aimed && u.delivered == t.delivered
  {
    var input := t.inputs[id];
    var record := t.records[input.record];
    if record.pty != input.selected || record.pty.None? || !record.open || !live || !sendable then EndInput(t, id)
    else
      var sequence := record.operationSequence + 1;
      var channel := record.pty.value;
      SetRecord(t, input.record, record.(operationSequence := sequence))
      .(inputs := t.inputs[id := input.(at := Sending(sequence))],
        sent := t.sent[channel := Log(t.sent, channel) + [Sent(sequence, id)]])
  }

  function InputFailed(t: Terminals, id: nat): (u: Terminals)
    requires id in t.inputs && t.inputs[id].record in t.records
    ensures SameLogs(t, u)
  {
    var input := t.inputs[id];
    var record := t.records[input.record];
    if record.pty != input.selected then EndInput(t, id)
    else SetRecord(t, input.record, record.(pty := None, pumpToken := record.pumpToken + 1))
         .(inputs := t.inputs[id := input.(at := Abandoning)])
  }

  // ----- the controller -----

  class TerminalController {
    var disposed: bool
    var records: map<RecordId, Record>
    var attaches: map<nat, Attach>
    var pumps: map<nat, Pump>
    var inputs: map<nat, Input>
    var nextId: nat

    // Who opened each channel, and what passed through it.
    ghost var owner: map<Channel, RecordId>
    ghost var delivered: map<Channel, seq<Delivered>>
    ghost var sent: map<Channel, seq<Sent>>
    ghost var aimed: map<nat, Option<Channel>>

    ghost function State(): Terminals
      reads this
    {
      Terminals(disposed, records, attaches, pumps, inputs, nextId, owner, delivered, sent, aimed)
    }

    constructor ()
      ensures State() == Init()
    {
      disposed, records, attaches, pumps, inputs, nextId := false, map[], map[], map[], map[], 0;
      owner, delivered, sent, aimed := map[], map[], map[], map[];
    }

    method Push() returns (id: RecordId)
      modifies this
      ensures State() == PushRecord(old(State())) && id == old(nextId)
    {
      id := nextId;
      records := records[id := Record(true, None, 0, 0, 0, 0, 0)];
      nextId := nextId + 1;
    }

    method Remove(id: RecordId)
      requires id in records
      modifies this`records
      ensures State() == RemoveTerminal(old(State()), id)
    {
      records := records[id := Stopped(records[id]).(open := false)];
    }

    method Detach(forget: bool)
      modifies this`records
      ensures State() == DetachAll(old(State()), forget)
    {
      var todo := records.Keys;
      while todo != {}
        invariant todo <= records.Keys == old(records).Keys
        invariant forall id | id in todo :: records[id] == old(records)[id]
        invariant forall id | id in records && id !in todo :: records[id] == DetachAll(old(State()), forget).records[id]
        decreases |todo|
      {
        var id :| id in todo;
        if records[id].open {
          records := records[id := Stopped(records[id]).(open := !forget)];
        }
        todo := todo - {id};
      }
      assert records == DetachAll(old(State()), forget).records;
    }

    method Open(id: RecordId)
      requires id in records
      modifies this
      ensures State() == OpenTerminal(old(State()), id)
    {
      var record := records[id].(attachToken := records[id].attachToken + 1, pumpToken := records[id].pumpToken + 1, pty := None);
      records := records[id := record];
      attaches := attaches[nextId := Attach(id, record.attachToken, false)];
      nextId := nextId + 1;
    }

    predicate IsSuperseded(attach: Attach, stale: bool)
      requires attach.record in records
      reads this
      ensures IsSuperseded(attach, stale) <==> Superseded(State(), attach, stale)
    {
      attach.token != records[attach.record].attachToken || !records[attach.record].open || stale
    }

    method PreviousIsClosed(id: nat, stale: bool)
      requires id in attaches && attaches[id].record in records
      modifies this`attaches
      ensures State() == PreviousClosed(old(State()), id, stale)
    {
      if IsSuperseded(attaches[id], stale) {
        attaches := attaches - {id};
      } else {
        attaches := attaches[id := attaches[id].(opening := true)];
      }
    }

    method IsOpened(id: nat, channel: Channel, stale: bool)
      requires id in attaches && attaches[id].record in records && channel !in owner
      modifies this
      ensures State() == Opened(old(State()), id, channel, stale)
    {
      var attach := attaches[id];
      attaches := attaches - {id};
      owner := owner[channel := attach.record];
      if !IsSuperseded(attach, stale) {
        var record := records[attach.record];
        record := record.(pty := Some(channel), readSequence := 0, operationSequence := 0, queue := record.queue + 1,
                          pumpToken := record.pumpToken + 1);
        records := records[attach.record := record];
        pumps := pumps[nextId := Pump(attach.record, record.pumpToken, channel, Reading)];
        nextId := nextId + 1;
      }
    }

    predicate IsCurrent(pump: Pump)
      requires pump.record in records
      reads this
      ensures IsCurrent(pump) <==> Current(State(), pump)
    {
      !disposed && pump.token == records[pump.record].pumpToken
    }

    method StopPump(id: nat)
      modifies this`pumps
      ensures State() == EndPump(old(State()), id)
    {
      pumps := pumps - {id};
    }

    method Loop(id: nat, pump: Pump)
      requires pump.record in records
      modifies this`pumps
      ensures State() == ReadOn(old(State()), id, pump)
    {
      if IsCurrent(pump) && records[pump.record].pty == Some(pump.channel) {
        pumps := pumps[id := pump.(at := Reading)];
      } else {
        StopPump(id);
      }
    }

    method Catch(id: nat, pump: Pump, keep: bool)
      requires pump.record in records
      modifies this
      ensures State() == PumpFails(old(State()), id, pump, keep)
    {
      if IsCurrent(pump) {
        if keep {
          var record := records[pump.record];
          records := records[pump.record := record.(pty := None, pumpToken := record.pumpToken + 1)];
        } else {
          Remove(pump.record);
        }
      }
      StopPump(id);
    }

    method Eof(id: nat, pump: Pump)
      requires pump.record in records
      modifies this
      ensures State() == EndOfFile(old(State()), id, pump)
    {
      records := records[pump.record := records[pump.record].(pty := None)];
      pumps := pumps[id := pump.(at := Probing)];
    }

    method IsRead(id: nat, answer: Answer, keep: bool)
      requires id in pumps && pumps[id].record in records
      modifies this
      ensures State() == ReadAnswered(old(State()), id, answer, keep)
    {
      var pump := pumps[id];
      var record := records[pump.record];
      if !IsCurrent(pump) {
        StopPump(id);
      } else if !Acceptable(record, answer) {
        Catch(id, pump, keep);
      } else if answer.sequence == record.readSequence + 1 {
        delivered := delivered[pump.channel := Log(delivered, pump.channel) + [Delivered(answer.sequence, answer.bytes, pump.record)]];
        pumps := pumps[id := pump.(at := Delivering(answer.sequence, answer.eof))];
      } else if answer.eof {
        Eof(id, pump);
      } else {
        Loop(id, pump);
      }
    }

    method ListenersAreDone(id: nat)
      requires id in pumps && pumps[id].record in records && pumps[id].at.Delivering?
      modifies this
      ensures State() == ListenersDone(old(State()), id)
    {
      var pump := pumps[id];
      if !IsCurrent(pump) {
        StopPump(id);
        return;
      }
      records := records[pump.record := records[pump.record].(readSequence := pump.at.sequence)];
      if pump.at.eof {
        Eof(id, pump);
      } else {
        Loop(id, pump);
      }
    }

    method IsProbed(id: nat, stays: bool)
      requires id in pumps && pumps[id].record in records
      modifies this
      ensures State() == Probed(old(State()), id, stays)
    {
      if IsCurrent(pumps[id]) && !stays {
        Remove(pumps[id].record);
      }
      StopPump(id);
    }

    method SubmitInput(id: RecordId)
      requires id in records
      modifies this
      ensures State() == Submit(old(State()), id)
    {
      inputs := inputs[nextId := Input(id, records[id].pty, records[id].queue, Queued)];
      aimed := aimed[nextId := records[id].pty];
      nextId := nextId + 1;
    }

    method StartInput(id: nat, live: bool, sendable: bool)
      requires id in inputs && inputs[id].record in records
      modifies this
      ensures State() == Start(old(State()), id, live, sendable)
    {
      var input := inputs[id];
      var record := records[input.record];
      if record.pty != input.selected || record.pty.None? || !record.open || !live || !sendable {
        inputs := inputs - {id};
        return;
      }
      var sequence, channel := record.operationSequence + 1, record.pty.value;
      records := records[input.record := record.(operationSequence := sequence)];
      inputs := inputs[id := input.(at := Sending(sequence))];
      sent := sent[channel := Log(sent, channel) + [Sent(sequence, id)]];
    }

    method InputFails(id: nat)
      requires id in inputs && inputs[id].record in records
      modifies this
      ensures State() == InputFailed(old(State()), id)
    {
      var input := inputs[id];
      var record := records[input.record];
      if record.pty != input.selected {
        inputs := inputs - {id};
      } else {
        records := records[input.record := record.(pty := None, pumpToken := record.pumpToken + 1)];
        inputs := inputs[id := input.(at := Abandoning)];
      }
    }
  }
}
