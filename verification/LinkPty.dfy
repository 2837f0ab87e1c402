/** src/linkCapability.ts: the output buffer of one PTY channel and the readers waiting on it. */
module LinkPty {
  import opened Collections

  type Bytes = seq<bv8>

  /** What a waiting reader is served, whatever it asked for. */
  const WAITER_MAX: nat := 65536

  datatype Answer = Answer(reader: nat, bytes: Bytes, eof: bool)

  datatype Buffer = Buffer(chunks: seq<Bytes>, eof: bool, waiters: seq<nat>, answers: seq<Answer>)

  function Concat(chunks: seq<Bytes>): Bytes {
    if chunks == [] then [] else chunks[0] + Concat(chunks[1..])
  }

  /** The first `n` bytes of a queue, or all it has. */
  function First(bytes: Bytes, n: nat): Bytes {
    if |bytes| <= n then bytes else bytes[..n]
  }

  function Rest(bytes: Bytes, n: nat): Bytes {
    if |bytes| <= n then [] else bytes[n..]
  }

  // ----- taking -----

  datatype Taken = Taken(bytes: Bytes, left: seq<Bytes>)

  function Take(chunks: seq<Bytes>, max: nat): Taken
    decreases |chunks|
  {
    if chunks == [] || max == 0 then Taken([], chunks)
    else if |chunks[0]| > max then Taken(chunks[0][..max], [chunks[0][max..]] + chunks[1..])
    else
      var rest := Take(chunks[1..], max - |chunks[0]|);
      Taken(chunks[0] + rest.bytes, rest.left)
  }

  /** `takeBuffered` takes the first bytes of the queue and leaves the others. */
  lemma {:induction false} TakeIsFirst(chunks: seq<Bytes>, max: nat)
    ensures var t := Take(chunks, max);
            t.bytes == First(Concat(chunks), max) && Concat(t.left) == Rest(Concat(chunks), max)
    decreases |chunks|
  {
    var t := Take(chunks, max);
    if chunks == [] || max == 0 {
    } else if |chunks[0]| > max {
      assert t.left[1..] == chunks[1..];
      assert Concat(t.left) == chunks[0][max..] + Concat(chunks[1..]);
    } else {
      TakeIsFirst(chunks[1..], max - |chunks[0]|);
    }
  }

  // ----- the steps -----

  function Reply(b: Buffer, reader: nat, bytes: Bytes, eof: bool): Buffer {
    b.(answers := b.answers + [Answer(reader, bytes, eof)])
  }

  function ServeOne(b: Buffer, reader: nat): Buffer {
    var t := Take(b.chunks, WAITER_MAX);
    Reply(b.(chunks := t.left), reader, t.bytes, b.eof && t.left == [])
  }

  function Serve(b: Buffer, readers: seq<nat>): Buffer
    decreases |readers|
  {
    if readers == [] then b
    else ServeOne(Serve(b, readers[..|readers| - 1]), readers[|readers| - 1])
  }

  function Flush(b: Buffer): Buffer {
    Serve(b.(waiters := []), b.waiters)
  }

  function Data(b: Buffer, payload: Bytes): Buffer {
    if b.eof then b else Flush(b.(chunks := b.chunks + [payload]))
  }

  /** `exit`, `eof`, `ch_error`, a lost connection and `closePty` all end the stream. */
  function EndStream(b: Buffer): Buffer {
    Flush(b.(eof := true))
  }

  function Read(b: Buffer, reader: nat, max: nat, wait: bool): Buffer {
    if b.chunks != [] then
      var t := Take(b.chunks, max);
      Reply(b.(chunks := t.left), reader, t.bytes, false)
    else if b.eof then Reply(b, reader, [], true)
    else if !wait then Reply(b, reader, [], false)
    else b.(waiters := b.waiters + [reader])
  }

  function TimeOut(b: Buffer, reader: nat): Buffer {
    if reader in b.waiters then Reply(b.(waiters := Without(b.waiters, reader)), reader, [], false) else b
  }

  /** `splice` at the first index of the reader. */
  function Without(waiters: seq<nat>, reader: nat): seq<nat> {
    if waiters == [] then []
    else if waiters[0] == reader then waiters[1..]
    else [waiters[0]] + Without(waiters[1..], reader)
  }

  // ----- the buffer itself -----

  class PtyBuffer {
    var chunks: seq<Bytes>
    var eof: bool
    var waiters: seq<nat>
    var answers: seq<Answer>

    function State(): Buffer
      reads this
    {
      Buffer(chunks, eof, waiters, answers)
    }

    constructor ()
      ensures State() == Buffer([], false, [], [])
    {
      chunks, eof, waiters, answers := [], false, [], [];
    }

    method TakeBuffered(max: nat) returns (taken: Bytes)
      modifies this`chunks
      ensures taken == Take(old(chunks), max).bytes && chunks == Take(old(chunks), max).left
    {
      taken := [];
      while |chunks| > 0 && |taken| < max
        invariant |taken| <= max
        invariant Take(old(chunks), max) == Taken(taken + Take(chunks, max - |taken|).bytes, Take(chunks, max - |taken|).left)
        decreases |chunks|
      {
        var chunk := chunks[0];
        if |taken| + |chunk| > max {
          var part := max - |taken|;
          taken := taken + chunk[..part];
          chunks := chunks[0 := chunk[part..]];
          assert chunks == [chunk[part..]] + chunks[1..];
          return;
        }
        taken := taken + chunk;
        chunks := chunks[1..];
      }
    }

    method Deliver(reader: nat, bytes: Bytes, atEnd: bool)
      modifies this`answers
      ensures answers == old(answers) + [Answer(reader, bytes, atEnd)]
    {
      answers := answers + [Answer(reader, bytes, atEnd)];
    }

    method FlushPty()
      modifies this
      ensures State() == Flush(old(State()))
    {
      var readers := waiters;
      waiters := [];
      ghost var start := State();
      for i := 0 to |readers|
        invariant State() == Serve(start, readers[..i])
      {
        assert readers[..i + 1][..i] == readers[..i];
        var taken := TakeBuffered(WAITER_MAX);
        Deliver(readers[i], taken, eof && |chunks| == 0);
      }
      assert readers[..|readers|] == readers;
    }

    method HandleData(payload: Bytes)
      modifies this
      ensures State() == Data(old(State()), payload)
    {
      if !eof {
        chunks := chunks + [payload];
        FlushPty();
      }
    }

    method Finish()
      modifies this
      ensures State() == EndStream(old(State()))
    {
      eof := true;
      FlushPty();
    }

    method ReadPty(reader: nat, max: nat, wait: bool)
      modifies this
      ensures State() == Read(old(State()), reader, max, wait)
    {
      if |chunks| > 0 {
        var taken := TakeBuffered(max);
        Deliver(reader, taken, false);
      } else if eof {
        Deliver(reader, [], true);
      } else if !wait {
        Deliver(reader, [], false);
      } else {
        waiters := waiters + [reader];
      }
    }

    method Expire(reader: nat)
      modifies this
      ensures State() == TimeOut(old(State()), reader)
    {
      if reader in waiters {
        waiters := Without(waiters, reader);
        Deliver(reader, [], false);
      }
    }
  }

  // ----- every run -----

  datatype Event = Arrive(payload: Bytes) | End | Ask(reader: nat, max: nat, wait: bool) | Expire(reader: nat)

  function Next(b: Buffer, e: Event): Buffer {
    match e
    case Arrive(payload) => Data(b, payload)
    case End => EndStream(b)
    case Ask(reader, max, wait) => Read(b, reader, max, wait)
    case Expire(reader) => TimeOut(b, reader)
  }

  function Run(events: seq<Event>): Buffer {
    if events == [] then Buffer([], false, [], []) else Next(Run(events[..|events| - 1]), events[|events| - 1])
  }

  /** The bytes that arrived before the end of the stream. */
  function Accepted(events: seq<Event>): Bytes {
    if events == [] then []
    else
      var before, e := events[..|events| - 1], events[|events| - 1];
      if e.Arrive? && !Run(before).eof then Accepted(before) + e.payload else Accepted(before)
  }

  function Received(answers: seq<Answer>): Bytes {
    if answers == [] then [] else Received(answers[..|answers| - 1]) + answers[|answers| - 1].bytes
  }

  /** Nothing follows an answer that reported the end. */
  ghost predicate EndIsLast(answers: seq<Answer>) {
    forall i, j | 0 <= i < j < |answers| && answers[i].eof :: answers[j].bytes == [] && answers[j].eof
  }

  /** Bytes are neither lost nor reordered; readers wait only on an empty, open stream; an
      end is reported only when nothing is left. */
  ghost predicate Inv(b: Buffer, accepted: Bytes) {
    && Received(b.answers) + Concat(b.chunks) == accepted
    && (b.waiters != [] ==> b.chunks == [] && !b.eof)
    && (forall i | 0 <= i < |b.answers| && b.answers[i].eof :: b.eof && b.chunks == [] && b.answers[i].bytes == [])
    && EndIsLast(b.answers)
  }

  lemma ReplyReceives(b: Buffer, reader: nat, bytes: Bytes, eof: bool)
    ensures Received(Reply(b, reader, bytes, eof).answers) == Received(b.answers) + bytes
  {
    assert Reply(b, reader, bytes, eof).answers[..|b.answers|] == b.answers;
  }

  lemma FirstRest(bytes: Bytes, n: nat)
    ensures First(bytes, n) + Rest(bytes, n) == bytes
  {
  }

  /** A taken part moves from the queue to the answers. */
  lemma TakeMoves(b: Buffer, reader: nat, max: nat, eof: bool)
    ensures var t := Take(b.chunks, max);
            Received(Reply(b.(chunks := t.left), reader, t.bytes, eof).answers) + Concat(t.left) == Received(b.answers) + Concat(b.chunks)
  {
    var t := Take(b.chunks, max);
    TakeIsFirst(b.chunks, max);
    ReplyReceives(b.(chunks := t.left), reader, t.bytes, eof);
    FirstRest(Concat(b.chunks), max);
    assert Received(b.answers) + t.bytes + Concat(t.left) == Received(b.answers) + (t.bytes + Concat(t.left));
  }

  /** What serving the waiting readers does to an open stream, and to one that has ended. */
  lemma {:induction false} ServeKeeps(b: Buffer, readers: seq<nat>)
    ensures var s := Serve(b, readers);
            && s.eof == b.eof && s.waiters == b.waiters && |s.answers| == |b.answers| + |readers|
            && s.answers[..|b.answers|] == b.answers
            && Received(s.answers) + Concat(s.chunks) == Received(b.answers) + Concat(b.chunks)
            && (!b.eof ==> forall i | |b.answers| <= i < |s.answers| :: !s.answers[i].eof)
            && (b.chunks == [] ==>
                  s.chunks == [] && forall i | |b.answers| <= i < |s.answers| :: s.answers[i].bytes == [] && s.answers[i].eof == b.eof)
    decreases |readers|
  {
    if readers != [] {
      var before := Serve(b, readers[..|readers| - 1]);
      ServeKeeps(b, readers[..|readers| - 1]);
      TakeMoves(before, readers[|readers| - 1], WAITER_MAX, before.eof && Take(before.chunks, WAITER_MAX).left == []);
    }
  }

  lemma ConcatAppend(chunks: seq<Bytes>, payload: Bytes)
    ensures Concat(chunks + [payload]) == Concat(chunks) + payload
  {
    if chunks != [] {
      assert (chunks + [payload])[1..] == chunks[1..] + [payload];
      ConcatAppend(chunks[1..], payload);
    } else {
      assert Concat([payload]) == payload + Concat([]);
    }
  }

  lemma DataInv(b: Buffer, accepted: Bytes, payload: Bytes)
    requires Inv(b, accepted) && !b.eof
    ensures Inv(Data(b, payload), accepted + payload)
  {
    var start := b.(chunks := b.chunks + [payload], waiters := []);
    var s := Serve(start, b.waiters);
    ConcatAppend(b.chunks, payload);
    ServeKeeps(start, b.waiters);
    assert Received(b.answers) + (Concat(b.chunks) + payload) == accepted + payload;
    forall i | 0 <= i < |s.answers|
      ensures !s.answers[i].eof
    {
      if i < |b.answers| {
        assert s.answers[i] == s.answers[..|b.answers|][i];
      }
    }
  }

  lemma EndInv(b: Buffer, accepted: Bytes)
    requires Inv(b, accepted)
    ensures Inv(EndStream(b), accepted)
  {
    var s := EndStream(b);
    ServeKeeps(b.(eof := true, waiters := []), b.waiters);
    assert forall i | 0 <= i < |b.answers| :: s.answers[i] == s.answers[..|b.answers|][i];
  }

  lemma ReadInv(b: Buffer, accepted: Bytes, reader: nat, max: nat, wait: bool)
    requires Inv(b, accepted)
    ensures Inv(Read(b, reader, max, wait), accepted)
  {
    if b.chunks != [] {
      var t := Take(b.chunks, max);
      TakeMoves(b, reader, max, false);
      hide Take, Received;
      assert Inv(Reply(b.(chunks := t.left), reader, t.bytes, false), accepted);
    } else {
      ReplyReceives(b, reader, [], b.eof);
      ReplyReceives(b, reader, [], false);
    }
  }

  lemma NextInv(b: Buffer, accepted: Bytes, e: Event)
    requires Inv(b, accepted)
    ensures Inv(Next(b, e), if e.Arrive? && !b.eof then accepted + e.payload else accepted)
  {
    match e
    case Arrive(payload) =>
      if !b.eof {
        DataInv(b, accepted, payload);
      }
    case End => EndInv(b, accepted);
    case Ask(reader, max, wait) => ReadInv(b, accepted, reader, max, wait);
    case Expire(reader) => ReplyReceives(b.(waiters := Without(b.waiters, reader)), reader, [], false);
  }

  /** Over every run, what was delivered and what is buffered is what arrived before the end;
      an end is reported only once all of that was delivered. */
  lemma {:induction false} RunInv(events: seq<Event>)
    ensures Inv(Run(events), Accepted(events))
  {
    if events != [] {
      RunInv(events[..|events| - 1]);
      NextInv(Run(events[..|events| - 1]), Accepted(events[..|events| - 1]), events[|events| - 1]);
    }
  }

  lemma EndMeansAll(events: seq<Event>, i: nat)
    requires i < |Run(events).answers| && Run(events).answers[i].eof
    ensures Received(Run(events).answers) == Accepted(events) && Run(events).eof && Run(events).waiters == []
  {
    RunInv(events);
  }

  // ----- every read is answered once -----

  function Asked(events: seq<Event>): multiset<nat> {
    if events == [] then multiset{}
    else
      var before, e := Asked(events[..|events| - 1]), events[|events| - 1];
      if e.Ask? then before + multiset{e.reader} else before
  }

  function Answered(answers: seq<Answer>): multiset<nat> {
    if answers == [] then multiset{}
    else Answered(answers[..|answers| - 1]) + multiset{answers[|answers| - 1].reader}
  }

  lemma ReplyAnswers(b: Buffer, reader: nat, bytes: Bytes, eof: bool)
    ensures Answered(Reply(b, reader, bytes, eof).answers) == Answered(b.answers) + multiset{reader}
  {
    assert Reply(b, reader, bytes, eof).answers[..|b.answers|] == b.answers;
  }

  lemma {:induction false} ServeAnswers(b: Buffer, readers: seq<nat>)
    ensures Answered(Serve(b, readers).answers) == Answered(b.answers) + multiset(readers)
    decreases |readers|
  {
    if readers != [] {
      hide ServeOne, Answered;
      ServeAnswers(b, readers[..|readers| - 1]);
      Snoc(readers);
    }
  }

  lemma WithoutOne(waiters: seq<nat>, reader: nat)
    requires reader in waiters
    ensures multiset(waiters) == multiset(Without(waiters, reader)) + multiset{reader}
  {
    assert waiters == [waiters[0]] + waiters[1..];
    if waiters[0] != reader {
      WithoutOne(waiters[1..], reader);
    }
  }

  function Outstanding(b: Buffer): multiset<nat> {
    Answered(b.answers) + multiset(b.waiters)
  }

  lemma NextAnswers(b: Buffer, e: Event)
    ensures Outstanding(Next(b, e)) == if e.Ask? then Outstanding(b) + multiset{e.reader} else Outstanding(b)
  {
    hide Take, Answered, Serve;
    match e
    case Arrive(payload) =>
      ServeAnswers(b.(chunks := b.chunks + [payload], waiters := []), b.waiters);
      ServeKeeps(b.(chunks := b.chunks + [payload], waiters := []), b.waiters);
    case End =>
      ServeAnswers(b.(eof := true, waiters := []), b.waiters);
      ServeKeeps(b.(eof := true, waiters := []), b.waiters);
    case Ask(reader, max, wait) =>
      var t := Take(b.chunks, max);
      ReplyAnswers(b.(chunks := t.left), reader, t.bytes, false);
      ReplyAnswers(b, reader, [], true);
      ReplyAnswers(b, reader, [], false);
    case Expire(reader) =>
      if reader in b.waiters {
        WithoutOne(b.waiters, reader);
        ReplyAnswers(b.(waiters := Without(b.waiters, reader)), reader, [], false);
      }
  }

  /** Every read is answered exactly once, or still waits. */
  lemma {:induction false} EveryReadOnce(events: seq<Event>)
    ensures Answered(Run(events).answers) + multiset(Run(events).waiters) == Asked(events)
  {
    if events != [] {
      EveryReadOnce(events[..|events| - 1]);
      NextAnswers(Run(events[..|events| - 1]), events[|events| - 1]);
    }
  }

  // ----- the same as a plain queue of bytes -----

  datatype Queue = Queue(content: Bytes, eof: bool, waiters: seq<nat>, answers: seq<Answer>)

  function QServe(q: Queue, readers: seq<nat>): Queue
    decreases |readers|
  {
    if readers == [] then q
    else
      var before := QServe(q, readers[..|readers| - 1]);
      var rest := Rest(before.content, WAITER_MAX);
      before.(content := rest,
              answers := before.answers + [Answer(readers[|readers| - 1], First(before.content, WAITER_MAX), before.eof && rest == [])])
  }

  function QNext(q: Queue, e: Event): Queue {
    match e
    case Arrive(payload) => if q.eof then q else QServe(q.(content := q.content + payload, waiters := []), q.waiters)
    case End => QServe(q.(eof := true, waiters := []), q.waiters)
    case Ask(reader, max, wait) =>
      if q.content != [] then
        q.(content := Rest(q.content, max), answers := q.answers + [Answer(reader, First(q.content, max), false)])
      else if q.eof || !wait then q.(answers := q.answers + [Answer(reader, [], q.eof)])
      else q.(waiters := q.waiters + [reader])
    case Expire(reader) =>
      if reader in q.waiters then q.(waiters := Without(q.waiters, reader), answers := q.answers + [Answer(reader, [], false)]) else q
  }

  function QRun(events: seq<Event>): Queue {
    if events == [] then Queue([], false, [], []) else QNext(QRun(events[..|events| - 1]), events[|events| - 1])
  }

  function Abstract(b: Buffer): Queue {
    Queue(Concat(b.chunks), b.eof, b.waiters, b.answers)
  }

  predicate NoEmptyChunk(chunks: seq<Bytes>) {
    forall i | 0 <= i < |chunks| :: chunks[i] != []
  }

  lemma TakeKeepsNonEmpty(chunks: seq<Bytes>, max: nat)
    requires NoEmptyChunk(chunks)
    ensures NoEmptyChunk(Take(chunks, max).left)
    decreases |chunks|
  {
    if chunks != [] && max > 0 && |chunks[0]| <= max {
      TakeKeepsNonEmpty(chunks[1..], max - |chunks[0]|);
    }
  }

  /** Serving waiting readers is the same on both, unless an ended stream has empty chunks. */
  lemma {:induction false} ServeRefines(b: Buffer, readers: seq<nat>)
    requires b.eof ==> NoEmptyChunk(b.chunks)
    ensures Abstract(Serve(b, readers)) == QServe(Abstract(b), readers)
    ensures Serve(b, readers).eof == b.eof && (NoEmptyChunk(b.chunks) ==> NoEmptyChunk(Serve(b, readers).chunks))
    decreases |readers|
  {
    if readers != [] {
      var before := Serve(b, readers[..|readers| - 1]);
      ServeRefines(b, readers[..|readers| - 1]);
      TakeIsFirst(before.chunks, WAITER_MAX);
      if NoEmptyChunk(b.chunks) {
        TakeKeepsNonEmpty(before.chunks, WAITER_MAX);
        assert Take(before.chunks, WAITER_MAX).left == [] <==> Concat(Take(before.chunks, WAITER_MAX).left) == [];
      }
    }
  }

  /** A read that finds chunks but not one byte in them, and may not be told there is nothing
      yet: at the end of the stream, or when it would wait. */
  predicate FindsEmptyChunks(b: Buffer, e: Event) {
    e.Ask? && b.chunks != [] && Concat(b.chunks) == [] && (b.eof || e.wait)
  }

  /** In every state that can be reached, one step answers as a plain queue of bytes does
      exactly when it is not such a read. */
  lemma StepRefinesExactly(b: Buffer, accepted: Bytes, e: Event)
    requires Inv(b, accepted)
    ensures Abstract(Next(b, e)) == QNext(Abstract(b), e) <==> !FindsEmptyChunks(b, e)
  {
    match e
    case Arrive(payload) =>
      if !b.eof {
        ConcatAppend(b.chunks, payload);
        ServeRefines(b.(chunks := b.chunks + [payload], waiters := []), b.waiters);
      }
    case End =>
      if b.waiters != [] {
        ServeRefines(b.(eof := true, waiters := []), b.waiters);
      }
    case Ask(reader, max, wait) => ReadRefinesExactly(b, reader, max, wait);
    case Expire(_) =>
  }

  lemma ReadRefinesExactly(b: Buffer, reader: nat, max: nat, wait: bool)
    ensures Abstract(Read(b, reader, max, wait)) == QNext(Abstract(b), Ask(reader, max, wait))
       <==> !FindsEmptyChunks(b, Ask(reader, max, wait))
  {
    TakeIsFirst(b.chunks, max);
    hide Take;
    if b.chunks != [] && Concat(b.chunks) == [] {
      var ours, theirs := Read(b, reader, max, wait).answers, QNext(Abstract(b), Ask(reader, max, wait)).answers;
      assert ours == b.answers + [Answer(reader, [], false)];
      if b.eof {
        assert ours[|b.answers|] != theirs[|b.answers|];
      }
    }
  }

  /** After its first k steps a run is where the byte queue is. */
  ghost predicate Agrees(events: seq<Event>, k: nat)
    requires k <= |events|
  {
    Abstract(Run(events[..k])) == QRun(events[..k])
  }

  predicate FindsAt(events: seq<Event>, k: nat)
    requires k < |events|
  {
    FindsEmptyChunks(Run(events[..k]), events[k])
  }

  /** So a run, and everything in it, answers as the byte queue does exactly when no read in
      it finds empty chunks: a read gets the first bytes up to its maximum, a waiting one up
      to 65536. */
  lemma {:induction false} RefinesByteQueue(events: seq<Event>)
    ensures (forall k: nat | k <= |events| :: Agrees(events, k)) <==> (forall k: nat | k < |events| :: !FindsAt(events, k))
  {
    hide Agrees, FindsAt;
    if events == [] {
      AgreesAtStart();
    } else {
      var n := |events| - 1;
      var before := events[..n];
      RefinesByteQueue(before);
      forall k: nat | k <= n
        ensures Agrees(before, k) == Agrees(events, k) && (k < n ==> FindsAt(before, k) == FindsAt(events, k))
      {
        SoFar(events, k);
      }
      AgreesNext(events);
      assert (forall k: nat | k <= n :: Agrees(events, k)) <==> (forall k: nat | k < n :: !FindsAt(events, k));
    }
  }

  lemma AgreesAtStart()
    ensures Agrees([], 0)
  {
  }

  lemma SoFar(events: seq<Event>, k: nat)
    requires k < |events|
    ensures var before := events[..|events| - 1];
            Agrees(before, k) == Agrees(events, k) && (k < |before| ==> FindsAt(before, k) == FindsAt(events, k))
  {
    assert events[..|events| - 1][..k] == events[..k];
    hide Run, QRun, Abstract;
  }

  /** From where the queue is, the last step keeps up with it or finds empty chunks. */
  lemma AgreesNext(events: seq<Event>)
    requires events != []
    ensures Agrees(events, |events| - 1) ==> (Agrees(events, |events|) <==> !FindsAt(events, |events| - 1))
  {
    var before := events[..|events| - 1];
    assert events[..|events|] == events;
    RunInv(before);
    StepRefinesExactly(Run(before), Accepted(before), events[|events| - 1]);
    hide Next, QNext, FindsEmptyChunks, Inv, Abstract;
  }

  /** No empty payload, no such read. */
  lemma {:induction false} NonEmptyPayloads(events: seq<Event>)
    requires forall i | 0 <= i < |events| && events[i].Arrive? :: events[i].payload != []
    ensures NoEmptyChunk(Run(events).chunks) && forall k: nat | k < |events| :: !FindsAt(events, k)
  {
    if events != [] {
      var before, e := events[..|events| - 1], events[|events| - 1];
      NonEmptyPayloads(before);
      RunInv(before);
      StepKeepsNonEmpty(Run(before), Accepted(before), e);
      assert !FindsAt(events, |before|);
      forall k: nat | k < |before|
        ensures !FindsAt(events, k)
      {
        SoFar(events, k);
      }
      hide Next, FindsAt, NoEmptyChunk;
    }
  }

  lemma StepKeepsNonEmpty(b: Buffer, accepted: Bytes, e: Event)
    requires Inv(b, accepted) && NoEmptyChunk(b.chunks) && (e.Arrive? ==> e.payload != [])
    ensures NoEmptyChunk(Next(b, e).chunks) && !FindsEmptyChunks(b, e)
  {
    match e
    case Arrive(payload) => ServeRefines(b.(chunks := b.chunks + [payload], waiters := []), b.waiters);
    case End => ServeRefines(b.(eof := true, waiters := []), b.waiters);
    case Ask(_, max, _) => TakeKeepsNonEmpty(b.chunks, max);
    case Expire(_) =>
  }

  /** An empty payload answers the next read at once, with nothing, where the queue would wait. */
  lemma EmptyPayloadWakes(reader: nat, max: nat)
    ensures var events := [Arrive([])] + [Ask(reader, max, true)];
            && Run(events).answers == [Answer(reader, [], false)] && QRun(events).answers == [] && QRun(events).waiters == [reader]
            && FindsEmptyChunks(Run([Arrive([])]), Ask(reader, max, true))
  {
    var events := [Arrive([])] + [Ask(reader, max, true)];
    assert events[..1] == [Arrive([])] && [Arrive([])][..0] == [];
    assert Run([Arrive([])]) == Next(Run([]), Arrive([]));
    assert QRun([Arrive([])]) == QNext(QRun([]), Arrive([]));
    assert Run([Arrive([])]).chunks == [[]];
  }
}
