/** The `consume` driver loop (consumer/app.py:106-159) as a step function over
    abstract poll events. A poll yields nothing, a broker error, or a message
    whose payload either fails `json.loads` or parses into a record; a commit
    is an entry appended to the effect log. The interrupt that ends the loop
    is the end of the event sequence, after which the `finally` drain runs. */
module Pipeline {
  import opened Wrappers
  import opened Transactions
  import opened Store
  import opened Processor

  /** The batch size `consume` gives its processor. */
  const CONSUMER_BATCH_SIZE: int := 5

  /** Seconds without a flush after which an idle poll looks at the batch. */
  const FLUSH_TIMEOUT_SECONDS: real := 30.0

  /** The value of a message: undecodable bytes or JSON, or a parsed object. */
  datatype Payload = Malformed | Parsed(data: Record)

  /** What one `poll(1.0)` returned, with the wall-clock reading taken right
      after it (in seconds). */
  datatype Poll =
    | NoMessage(now: real)
    | ErrorMessage
    | Message(offset: nat, payload: Payload, now: real)

  /** One loop iteration's input: the poll result, and whether the database
      accepts a batch should this iteration save one. */
  datatype Event = Event(poll: Poll, dbUp: bool)

  /** The loop's state: the processor's buffer and the table, `start_time`,
      `processed_count`, and every save and commit so far, in order. */
  datatype Snapshot = Snapshot(
    batch: seq<Transaction>,
    table: Table,
    startTime: real,
    processedCount: nat,
    log: seq<Effect>)

  /** `process_batch_if_ready` on the snapshot. */
  function FlushIfFull(batchSize: int, s: Snapshot, dbUp: bool): Snapshot {
    if |s.batch| >= batchSize then
      var saved := Save(s.table, s.batch, dbUp);
      s.(batch := [], table := saved.table, log := s.log + saved.effects)
    else s
  }

  /** `flush_remaining` on the snapshot. */
  function Drain(s: Snapshot, dbUp: bool): Snapshot {
    if s.batch != [] then
      var saved := Save(s.table, s.batch, dbUp);
      s.(batch := [], table := saved.table, log := s.log + saved.effects)
    else s
  }

  /** One iteration of the `while True` loop. */
  function Next(batchSize: int, s: Snapshot, e: Event): Snapshot {
    match e.poll
    case NoMessage(now) =>
      if now - s.startTime > FLUSH_TIMEOUT_SECONDS && s.batch != [] then
        FlushIfFull(batchSize, s, e.dbUp).(startTime := now)
      else s
    case ErrorMessage => s
    case Message(offset, payload, now) =>
      match payload
      case Malformed => s
      case Parsed(data) =>
        var counted := s.(processedCount := s.processedCount + 1);
        match Decode(data)
        case Err(_) => counted
        case Ok(tx) =>
          var appended := counted.(batch := s.batch + [tx]);
          var flushed :=
            if |appended.batch| >= batchSize
            then FlushIfFull(batchSize, appended, e.dbUp).(startTime := now)
            else appended;
          flushed.(log := flushed.log + [Committed(offset)])
  }

  /** The state after the loop has handled `events`, first to last. */
  function Replay(batchSize: int, s: Snapshot, events: seq<Event>): Snapshot
    decreases |events|
  {
    if events == [] then s
    else Next(batchSize, Replay(batchSize, s, events[..|events| - 1]), events[|events| - 1])
  }

  /** The transactions a poll appends to the buffer. */
  function AppendedBy(p: Poll): seq<Transaction> {
    match p
    case Message(_, Parsed(data), _) => if Decode(data).Ok? then [Decode(data).value] else []
    case _ => []
  }

  /** The offsets a poll commits. */
  function CommittedBy(p: Poll): seq<nat> {
    match p
    case Message(offset, Parsed(data), _) => if Decode(data).Ok? then [offset] else []
    case _ => []
  }

  /** Every transaction decoded from `events`, in arrival order. */
  function Accepted(events: seq<Event>): seq<Transaction>
    decreases |events|
  {
    if events == [] then []
    else Accepted(events[..|events| - 1]) + AppendedBy(events[|events| - 1].poll)
  }

  /** The offsets of the messages whose record decoded, in arrival order. */
  function AcceptedOffsets(events: seq<Event>): seq<nat>
    decreases |events|
  {
    if events == [] then []
    else AcceptedOffsets(events[..|events| - 1]) + CommittedBy(events[|events| - 1].poll)
  }

  /** How many payloads `json.loads` accepted. */
  function ParsedCount(events: seq<Event>): nat
    decreases |events|
  {
    if events == [] then 0
    else
      var p := events[|events| - 1].poll;
      ParsedCount(events[..|events| - 1]) + if p.Message? && p.payload.Parsed? then 1 else 0
  }

  /** The transactions handed to `save_batch`, concatenated in call order. */
  function SavedTransactions(log: seq<Effect>): seq<Transaction>
    decreases |log|
  {
    if log == [] then []
    else
      var e := log[|log| - 1];
      SavedTransactions(log[..|log| - 1]) + if e.SaveAttempted? then e.batch else []
  }

  /** The committed offsets, in commit order. */
  function Commits(log: seq<Effect>): seq<nat>
    decreases |log|
  {
    if log == [] then []
    else
      var e := log[|log| - 1];
      Commits(log[..|log| - 1]) + if e.Committed? then [e.offset] else []
  }

  lemma LogAppend(a: seq<Effect>, b: seq<Effect>)
    ensures SavedTransactions(a + b) == SavedTransactions(a) + SavedTransactions(b)
    ensures Commits(a + b) == Commits(a) + Commits(b)
  {
    SavedTransactionsAppend(a, b);
    CommitsAppend(a, b);
  }

  lemma {:induction false} SavedTransactionsAppend(a: seq<Effect>, b: seq<Effect>)
    ensures SavedTransactions(a + b) == SavedTransactions(a) + SavedTransactions(b)
    decreases |b|
  {
    if b == [] {
      assert a + b == a;
    } else {
      var n := |b| - 1;
      var e := b[n];
      assert (a + b)[..|a + b| - 1] == a + b[..n];
      assert (a + b)[|a + b| - 1] == e;
      SavedTransactionsAppend(a, b[..n]);
      var tail := if e.SaveAttempted? then e.batch else [];
      calc {
        SavedTransactions(a + b);
        SavedTransactions(a + b[..n]) + tail;
        SavedTransactions(a) + SavedTransactions(b[..n]) + tail;
        SavedTransactions(a) + (SavedTransactions(b[..n]) + tail);
        SavedTransactions(a) + SavedTransactions(b);
      }
    }
  }

  lemma {:induction false} CommitsAppend(a: seq<Effect>, b: seq<Effect>)
    ensures Commits(a + b) == Commits(a) + Commits(b)
    decreases |b|
  {
    if b == [] {
      assert a + b == a;
    } else {
      var n := |b| - 1;
      var e := b[n];
      assert (a + b)[..|a + b| - 1] == a + b[..n];
      assert (a + b)[|a + b| - 1] == e;
      CommitsAppend(a, b[..n]);
      var tail := if e.Committed? then [e.offset] else [];
      calc {
        Commits(a + b);
        Commits(a + b[..n]) + tail;
        Commits(a) + Commits(b[..n]) + tail;
        Commits(a) + (Commits(b[..n]) + tail);
        Commits(a) + Commits(b);
      }
    }
  }

  lemma SaveLog(table: Table, batch: seq<Transaction>, dbUp: bool)
    ensures SavedTransactions(Save(table, batch, dbUp).effects) == batch
    ensures Commits(Save(table, batch, dbUp).effects) == []
  {
    var effects := Save(table, batch, dbUp).effects;
    if batch != [] {
      assert effects[..0] == [];
    }
  }

  /** With a positive batch size, the buffer holds fewer than `batch_size`
      transactions at the top of every iteration: a filling append is always
      followed by a save that empties it. */
  lemma NextKeepsBelowCapacity(batchSize: int, s: Snapshot, e: Event)
    requires 1 <= batchSize && |s.batch| < batchSize
    ensures |Next(batchSize, s, e).batch| < batchSize
  {
  }

  lemma {:induction false} ReplayKeepsBelowCapacity(batchSize: int, s: Snapshot, events: seq<Event>)
    requires 1 <= batchSize && |s.batch| < batchSize
    ensures |Replay(batchSize, s, events).batch| < batchSize
    decreases |events|
  {
    if events != [] {
      ReplayKeepsBelowCapacity(batchSize, s, events[..|events| - 1]);
      NextKeepsBelowCapacity(batchSize, Replay(batchSize, s, events[..|events| - 1]), events[|events| - 1]);
    }
  }

  /** The timeout arm only runs on an empty poll, after more than 30 seconds,
      with a non-empty buffer; since that buffer is never full, it saves
      nothing and only restarts the timer. */
  lemma TimeoutNeverSavesPartialBatch(batchSize: int, s: Snapshot, now: real, dbUp: bool)
    requires |s.batch| < batchSize
    ensures Next(batchSize, s, Event(NoMessage(now), dbUp)) ==
      if now - s.startTime > 30.0 && s.batch != [] then s.(startTime := now) else s
  {
  }

  /** A broker error, or a payload `json.loads` rejects, is neither buffered
      nor committed nor counted. */
  lemma UnparsedMessageIgnored(batchSize: int, s: Snapshot, e: Event)
    requires e.poll.ErrorMessage? || (e.poll.Message? && e.poll.payload.Malformed?)
    ensures Next(batchSize, s, e) == s
  {
  }

  /** A parsed record missing a key, or with a non-numeric amount, raises
      before the append: nothing is buffered or committed, but it is counted. */
  lemma UndecodableRecordNotCommitted(batchSize: int, s: Snapshot, offset: nat, data: Record, now: real, dbUp: bool)
    requires Decode(data).Err?
    ensures Next(batchSize, s, Event(Message(offset, Parsed(data), now), dbUp)) ==
      s.(processedCount := s.processedCount + 1)
  {
  }

  /** A decoded message is appended, then, if that filled the buffer, the
      whole buffer is saved and the timer restarted, and only then is the
      message committed. */
  lemma DecodedMessageCommittedLast(batchSize: int, s: Snapshot, offset: nat, data: Record, now: real, dbUp: bool)
    requires Decode(data).Ok?
    ensures var tx := Decode(data).value;
            var r := Next(batchSize, s, Event(Message(offset, Parsed(data), now), dbUp));
            && r.processedCount == s.processedCount + 1
            && (|s.batch| + 1 >= batchSize ==>
                  var saved := Save(s.table, s.batch + [tx], dbUp);
                  && r.batch == []
                  && r.startTime == now
                  && r.table == saved.table
                  && r.log == s.log + [SaveAttempted(s.batch + [tx], saved.effects[0].outcome), Committed(offset)])
            && (|s.batch| + 1 < batchSize ==>
                  r == s.(batch := s.batch + [tx], processedCount := s.processedCount + 1,
                          log := s.log + [Committed(offset)]))
  {
  }

  /** The drain on exit saves the whole remainder and leaves the buffer empty. */
  lemma DrainSavesRemainder(s: Snapshot, dbUp: bool)
    ensures Drain(s, dbUp).batch == []
    ensures s.batch != [] ==> Drain(s, dbUp).log == s.log + Save(s.table, s.batch, dbUp).effects
    ensures SavedTransactions(Drain(s, dbUp).log) == SavedTransactions(s.log) + s.batch
    ensures Commits(Drain(s, dbUp).log) == Commits(s.log)
    ensures s.batch == [] ==> Drain(s, dbUp) == s
  {
    if s.batch != [] {
      SaveAccounting(s, dbUp);
    } else {
      assert SavedTransactions(s.log) + s.batch == SavedTransactions(s.log);
    }
  }

  /** Saving the whole buffer moves it, unchanged, to the end of the saved
      stream, commits nothing and keeps existing rows. */
  lemma SaveAccounting(s: Snapshot, dbUp: bool)
    ensures var saved := Save(s.table, s.batch, dbUp);
            && SavedTransactions(s.log + saved.effects) == SavedTransactions(s.log) + s.batch
            && Commits(s.log + saved.effects) == Commits(s.log)
  {
    var saved := Save(s.table, s.batch, dbUp);
    LogAppend(s.log, saved.effects);
    SaveLog(s.table, s.batch, dbUp);
  }

  lemma CommitAccounting(log: seq<Effect>, offset: nat)
    ensures SavedTransactions(log + [Committed(offset)]) == SavedTransactions(log)
    ensures Commits(log + [Committed(offset)]) == Commits(log) + [offset]
  {
    assert (log + [Committed(offset)])[..|log|] == log;
  }

  lemma MessageAccounting(batchSize: int, s: Snapshot, offset: nat, data: Record, now: real, dbUp: bool)
    requires Decode(data).Ok?
    ensures var r := Next(batchSize, s, Event(Message(offset, Parsed(data), now), dbUp));
            && SavedTransactions(r.log) + r.batch == SavedTransactions(s.log) + s.batch + [Decode(data).value]
            && Commits(r.log) == Commits(s.log) + [offset]
  {
    var tx := Decode(data).value;
    var r := Next(batchSize, s, Event(Message(offset, Parsed(data), now), dbUp));
    var appended := s.(processedCount := s.processedCount + 1, batch := s.batch + [tx]);
    if |appended.batch| >= batchSize {
      var saved := Save(appended.table, appended.batch, dbUp);
      assert r.batch == [] && r.log == appended.log + saved.effects + [Committed(offset)];
      SaveAccounting(appended, dbUp);
      CommitAccounting(appended.log + saved.effects, offset);
      assert SavedTransactions(r.log) == SavedTransactions(s.log) + (s.batch + [tx]);
    } else {
      assert r.batch == s.batch + [tx] && r.log == s.log + [Committed(offset)];
      CommitAccounting(s.log, offset);
    }
  }

  lemma NextAccounting(batchSize: int, s: Snapshot, e: Event)
    ensures var r := Next(batchSize, s, e);
            && SavedTransactions(r.log) + r.batch == SavedTransactions(s.log) + s.batch + AppendedBy(e.poll)
            && Commits(r.log) == Commits(s.log) + CommittedBy(e.poll)
  {
    match e.poll
    case NoMessage(now) =>
      if now - s.startTime > FLUSH_TIMEOUT_SECONDS && s.batch != [] && |s.batch| >= batchSize {
        SaveAccounting(s, e.dbUp);
      }
    case ErrorMessage =>
    case Message(offset, payload, now) =>
      if payload.Parsed? && Decode(payload.data).Ok? {
        MessageAccounting(batchSize, s, offset, payload.data, now, e.dbUp);
      }
  }

  lemma NextKeepsRows(batchSize: int, s: Snapshot, e: Event)
    ensures var r := Next(batchSize, s, e);
            && r.processedCount == s.processedCount + (if e.poll.Message? && e.poll.payload.Parsed? then 1 else 0)
            && forall id :: id in s.table ==> id in r.table && r.table[id] == s.table[id]
  {
    match e.poll
    case NoMessage(now) =>
      SaveKeepsExistingRows(s.table, s.batch, e.dbUp);
    case ErrorMessage =>
    case Message(offset, payload, now) =>
      if payload.Parsed? && Decode(payload.data).Ok? {
        SaveKeepsExistingRows(s.table, s.batch + [Decode(payload.data).value], e.dbUp);
      }
  }

  /** Over any run, every decoded transaction has either been handed to
      `save_batch` or is still buffered, exactly once and in arrival order. */
  lemma {:induction false} ReplaySavesOrBuffersAll(batchSize: int, s: Snapshot, events: seq<Event>)
    ensures var r := Replay(batchSize, s, events);
            SavedTransactions(r.log) + r.batch == SavedTransactions(s.log) + s.batch + Accepted(events)
    decreases |events|
  {
    if events != [] {
      var n := |events| - 1;
      var mid := Replay(batchSize, s, events[..n]);
      var r := Next(batchSize, mid, events[n]);
      assert Replay(batchSize, s, events) == r;
      ReplaySavesOrBuffersAll(batchSize, s, events[..n]);
      NextAccounting(batchSize, mid, events[n]);
      assert Accepted(events) == Accepted(events[..n]) + AppendedBy(events[n].poll);
    }
  }

  /** Over any run, exactly the messages whose record decoded are committed,
      in arrival order. */
  lemma {:induction false} ReplayCommitsDecoded(batchSize: int, s: Snapshot, events: seq<Event>)
    ensures Commits(Replay(batchSize, s, events).log) == Commits(s.log) + AcceptedOffsets(events)
    decreases |events|
  {
    if events != [] {
      var n := |events| - 1;
      var mid := Replay(batchSize, s, events[..n]);
      assert Replay(batchSize, s, events) == Next(batchSize, mid, events[n]);
      ReplayCommitsDecoded(batchSize, s, events[..n]);
      NextAccounting(batchSize, mid, events[n]);
      assert AcceptedOffsets(events) == AcceptedOffsets(events[..n]) + CommittedBy(events[n].poll);
    }
  }

  /** Over any run, every parsed payload is counted and no row already in the
      table changes. */
  lemma {:induction false} ReplayCountsAndKeepsRows(batchSize: int, s: Snapshot, events: seq<Event>)
    ensures var r := Replay(batchSize, s, events);
            && r.processedCount == s.processedCount + ParsedCount(events)
            && forall id :: id in s.table ==> id in r.table && r.table[id] == s.table[id]
    decreases |events|
  {
    if events != [] {
      var n := |events| - 1;
      var mid := Replay(batchSize, s, events[..n]);
      assert Replay(batchSize, s, events) == Next(batchSize, mid, events[n]);
      ReplayCountsAndKeepsRows(batchSize, s, events[..n]);
      NextKeepsRows(batchSize, mid, events[n]);
    }
  }

  /** The decoded transactions and the committed offsets run in step. */
  lemma {:induction false} AcceptedLengthsAgree(events: seq<Event>)
    ensures |Accepted(events)| == |AcceptedOffsets(events)|
    decreases |events|
  {
    if events != [] {
      AcceptedLengthsAgree(events[..|events| - 1]);
    }
  }

  /** The `k`-th committed offset belongs to the message whose record decoded
      to the `k`-th transaction of the saved-or-buffered stream. */
  lemma {:induction false} AcceptedPairsWithOffsets(events: seq<Event>, k: nat)
    requires k < |Accepted(events)|
    ensures k < |AcceptedOffsets(events)|
    ensures exists j :: 0 <= j < |events| && events[j].poll.Message? && events[j].poll.payload.Parsed?
                        && Decode(events[j].poll.payload.data) == Ok(Accepted(events)[k])
                        && events[j].poll.offset == AcceptedOffsets(events)[k]
    decreases |events|
  {
    var n := |events| - 1;
    var prefix := events[..n];
    AcceptedLengthsAgree(prefix);
    AcceptedLengthsAgree(events);
    assert Accepted(events) == Accepted(prefix) + AppendedBy(events[n].poll);
    assert AcceptedOffsets(events) == AcceptedOffsets(prefix) + CommittedBy(events[n].poll);
    if k < |Accepted(prefix)| {
      AcceptedPairsWithOffsets(prefix, k);
      var j :| 0 <= j < |prefix| && prefix[j].poll.Message? && prefix[j].poll.payload.Parsed?
               && Decode(prefix[j].poll.payload.data) == Ok(Accepted(prefix)[k])
               && prefix[j].poll.offset == AcceptedOffsets(prefix)[k];
      assert events[j] == prefix[j];
    } else {
      assert events[n].poll.Message? && events[n].poll.payload.Parsed?
             && Decode(events[n].poll.payload.data) == Ok(Accepted(events)[k])
             && events[n].poll.offset == AcceptedOffsets(events)[k];
    }
  }

  /** The loop's local state together with its processor. */
  class Consumer {
    const processor: PostgresProcessor
    var startTime: real
    var processedCount: nat
    var log: seq<Effect>

    ghost function State(): Snapshot
      reads this, processor
    {
      Snapshot(processor.batch, processor.table, startTime, processedCount, log)
    }

    /** The set-up before the loop: the processor, `init_db` on the existing
        table, and `start_time = datetime.now()`. */
    constructor (batchSize: int, table: Table, now: real)
      ensures fresh(processor) && processor.batchSize == batchSize
      ensures State() == Snapshot([], table, now, 0, [])
    {
      processor := new PostgresProcessor(batchSize, table);
      startTime := now;
      processedCount := 0;
      log := [];
    }

    /** One iteration of the loop body. */
    method Step(e: Event)
      modifies this, processor
      ensures State() == Next(processor.batchSize, old(State()), e)
    {
      match e.poll {
        case NoMessage(now) =>
          if now - startTime > FLUSH_TIMEOUT_SECONDS && processor.batch != [] {
            var effects := processor.ProcessBatchIfReady(e.dbUp);
            log := log + effects;
            startTime := now;
          }
        case ErrorMessage =>
        case Message(offset, payload, now) =>
          match payload {
            case Malformed =>
            case Parsed(data) =>
              processedCount := processedCount + 1;
              var batchReady := processor.AddToBatch(data);
              if batchReady.Ok? {
                if batchReady.value {
                  var effects := processor.ProcessBatchIfReady(e.dbUp);
                  log := log + effects;
                  startTime := now;
                }
                log := log + [Committed(offset)];
              }
          }
      }
    }

    /** The `finally` block: drain what is left. */
    method Shutdown(dbUp: bool)
      modifies this, processor
      ensures State() == Drain(old(State()), dbUp)
    {
      var effects := processor.FlushRemaining(dbUp);
      log := log + effects;
    }
  }

  /** `consume()`: a processor of batch size 5 over the existing table, the
      loop over `events`, then the drain. Returns the final table, the count
      of parsed payloads and the effect log. */
  method Consume(store: Table, startedAt: real, events: seq<Event>, dbUpAtExit: bool)
    returns (table: Table, processedCount: nat, log: seq<Effect>)
    ensures var r := Drain(Replay(CONSUMER_BATCH_SIZE, Snapshot([], store, startedAt, 0, []), events), dbUpAtExit);
            table == r.table && processedCount == r.processedCount && log == r.log
  {
    var consumer := new Consumer(CONSUMER_BATCH_SIZE, store, startedAt);
    ghost var start := consumer.State();
    var i := 0;
    while i < |events|
      invariant 0 <= i <= |events|
      invariant consumer.processor.batchSize == CONSUMER_BATCH_SIZE
      invariant consumer.State() == Replay(CONSUMER_BATCH_SIZE, start, events[..i])
      invariant |consumer.processor.batch| < CONSUMER_BATCH_SIZE
    {
      NextKeepsBelowCapacity(CONSUMER_BATCH_SIZE, consumer.State(), events[i]);
      consumer.Step(events[i]);
      assert events[..i + 1][..i] == events[..i];
      i := i + 1;
    }
    assert events[..|events|] == events;
    consumer.Shutdown(dbUpAtExit);
    table, processedCount, log := consumer.processor.table, consumer.processedCount, consumer.log;
  }

  /** After `consume` returns, every decoded transaction has been handed to
      `save_batch` exactly once, in arrival order, and exactly the decoded
      messages have been committed, in arrival order. */
  lemma ConsumeHandsEveryTransactionToSave(store: Table, startedAt: real, events: seq<Event>, dbUpAtExit: bool)
    ensures var r := Drain(Replay(CONSUMER_BATCH_SIZE, Snapshot([], store, startedAt, 0, []), events), dbUpAtExit);
            && r.batch == []
            && SavedTransactions(r.log) == Accepted(events)
            && Commits(r.log) == AcceptedOffsets(events)
            && r.processedCount == ParsedCount(events)
            && forall id :: id in store ==> id in r.table && r.table[id] == store[id]
  {
    var s := Snapshot([], store, startedAt, 0, []);
    var m := Replay(CONSUMER_BATCH_SIZE, s, events);
    var r := Drain(m, dbUpAtExit);
    ReplaySavesOrBuffersAll(CONSUMER_BATCH_SIZE, s, events);
    ReplayCommitsDecoded(CONSUMER_BATCH_SIZE, s, events);
    ReplayCountsAndKeepsRows(CONSUMER_BATCH_SIZE, s, events);
    assert SavedTransactions(m.log) + m.batch == Accepted(events);
    assert Commits(m.log) == AcceptedOffsets(events);
    DrainSavesRemainder(m, dbUpAtExit);
    SaveKeepsExistingRows(m.table, m.batch, dbUpAtExit);
    assert r.table == m.table || r.table == Save(m.table, m.batch, dbUpAtExit).table;
  }
}
