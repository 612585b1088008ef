/** `PostgresProcessor` (consumer/app.py:26-102): the in-memory batch, the
    insert-if-absent table it writes to, and the three batch operations. */
module Processor {
  import opened Wrappers
  import opened Transactions
  import opened Store

  /** What a call of `save_batch` on a non-empty batch ended in: the insert
      ran and the batch held `fraudCount` fraud rows, or an exception was
      caught and only logged. */
  datatype SaveOutcome = Stored(fraudCount: nat) | Failed

  /** The externally visible effects of the consumer, in the order they
      happen: a call of `save_batch` on a non-empty batch, whatever its
      outcome, or the commit of one message's offset. */
  datatype Effect =
    | SaveAttempted(batch: seq<Transaction>, outcome: SaveOutcome)
    | Committed(offset: nat)

  /** The table after a save and the effects it logged. */
  datatype Saved = Saved(table: Table, effects: seq<Effect>)

  /** `save_batch(batch)` against `table`, where `dbUp` says whether the pool
      and the `executemany` round trip succeed. An empty batch returns before
      touching the database. `executemany` is atomic, so a failure leaves the
      table as it was; the failure is swallowed either way. */
  function Save(table: Table, batch: seq<Transaction>, dbUp: bool): Saved {
    if batch == [] then Saved(table, [])
    else if dbUp then Saved(ExecuteMany(table, Rows(batch)), [SaveAttempted(batch, Stored(FraudCount(batch)))])
    else Saved(table, [SaveAttempted(batch, Failed)])
  }

  /** An empty batch logs nothing; any other logs exactly one attempt carrying
      the whole batch, which is reported stored exactly when the database was
      up, with the number of positions holding a fraud transaction. */
  lemma SaveReportsAttempt(table: Table, batch: seq<Transaction>, dbUp: bool)
    ensures var r := Save(table, batch, dbUp);
            && (batch == [] ==> r == Saved(table, []))
            && (batch != [] ==> |r.effects| == 1 && r.effects[0].SaveAttempted? && r.effects[0].batch == batch)
            && (batch != [] ==> (r.effects[0].outcome.Stored? <==> dbUp))
            && (batch != [] && dbUp ==>
                  r.effects[0].outcome.fraudCount == |set i | 0 <= i < |batch| && batch[i].isFraud|)
  {
    FraudCountIsFraudIndices(batch);
  }

  /** A save never changes a row that was already in the table; a failed save
      changes nothing at all. */
  lemma SaveKeepsExistingRows(table: Table, batch: seq<Transaction>, dbUp: bool)
    ensures var r := Save(table, batch, dbUp);
            && (forall id :: id in table ==> id in r.table && r.table[id] == table[id])
            && (!dbUp ==> r.table == table)
  {
  }

  /** After a successful save every transaction's id is in the table, and
      every row the save added is the row of a transaction of the batch. */
  lemma SaveStoresBatch(table: Table, batch: seq<Transaction>, dbUp: bool)
    ensures var r := Save(table, batch, dbUp);
            && (dbUp ==> forall i :: 0 <= i < |batch| ==> batch[i].transactionId in r.table)
            && (forall id :: id in r.table && id !in table ==>
                  exists i :: 0 <= i < |batch| && batch[i].transactionId == id && r.table[id] == ToRow(batch[i]))
  {
    if batch != [] && dbUp {
      NewRowsComeFromBatch(table, batch);
      forall i | 0 <= i < |batch| ensures batch[i].transactionId in ExecuteMany(table, Rows(batch)) {
        IdsOfRows(batch, batch[i].transactionId);
      }
    }
  }

  lemma NewRowsComeFromBatch(table: Table, batch: seq<Transaction>)
    ensures forall id :: id in ExecuteMany(table, Rows(batch)) && id !in table ==>
      exists i :: 0 <= i < |batch| && batch[i].transactionId == id &&
                  ExecuteMany(table, Rows(batch))[id] == ToRow(batch[i])
  {
    var t := ExecuteMany(table, Rows(batch));
    forall id | id in t && id !in table
      ensures exists i :: 0 <= i < |batch| && batch[i].transactionId == id && t[id] == ToRow(batch[i])
    {
      var rows := Rows(batch);
      var i :| 0 <= i < |rows| && rows[i] == FirstWithId(rows, id) &&
               (forall j :: 0 <= j < i ==> rows[j].transactionId != id);
      assert batch[i].transactionId == id && t[id] == ToRow(batch[i]);
    }
  }

  class PostgresProcessor {
    const batchSize: int
    var batch: seq<Transaction>
    var table: Table

    /** `PostgresProcessor(batch_size)` followed by `init_db`, which leaves the
        table as it already was. */
    constructor (batchSize: int, table: Table)
      ensures this.batchSize == batchSize && batch == [] && this.table == table
    {
      this.batchSize := batchSize;
      this.batch := [];
      this.table := table;
    }

    /** `add_to_batch(data)`: decodes, appends at the end and reports whether the
        batch has reached `batch_size`; a record that fails to decode raises
        before the append. */
    method AddToBatch(data: Record) returns (full: Result<bool, DecodeError>)
      modifies this`batch
      ensures Decode(data).Ok? ==>
        && batch == old(batch) + [Decode(data).value]
        && full == Ok(|batch| >= batchSize)
      ensures Decode(data).Err? ==> batch == old(batch) && full == Err(Decode(data).error)
    {
      var decoded := Decode(data);
      match decoded {
        case Err(e) =>
          full := Err(e);
        case Ok(tx) =>
          batch := batch + [tx];
          full := Ok(|batch| >= batchSize);
      }
    }

    /** `save_batch(b)`: builds one row per transaction, runs the upsert and
        counts the fraud rows; any failure is only logged. */
    method SaveBatch(b: seq<Transaction>, dbUp: bool) returns (effects: seq<Effect>)
      modifies this`table
      ensures Saved(table, effects) == Save(old(table), b, dbUp)
    {
      if b == [] {
        return [];
      }
      var values := BuildRows(b);
      if dbUp {
        table := ExecuteMany(table, values);
        effects := [SaveAttempted(b, Stored(FraudCount(b)))];
      } else {
        effects := [SaveAttempted(b, Failed)];
      }
    }

    /** `process_batch_if_ready`: only a full batch is saved; it is copied and
        the buffer cleared before the save, so the buffer is empty whatever the
        save's outcome. */
    method ProcessBatchIfReady(dbUp: bool) returns (effects: seq<Effect>)
      modifies this`batch, this`table
      ensures old(|batch|) >= batchSize ==>
        batch == [] && Saved(table, effects) == Save(old(table), old(batch), dbUp)
      ensures old(|batch|) < batchSize ==>
        batch == old(batch) && table == old(table) && effects == []
    {
      effects := [];
      if |batch| >= batchSize {
        var batchToProcess := batch;
        batch := [];
        effects := SaveBatch(batchToProcess, dbUp);
      }
    }

    /** `flush_remaining`: saves whatever is buffered and empties the buffer. */
    method FlushRemaining(dbUp: bool) returns (effects: seq<Effect>)
      modifies this`batch, this`table
      ensures batch == [] && Saved(table, effects) == Save(old(table), old(batch), dbUp)
    {
      effects := [];
      if batch != [] {
        effects := SaveBatch(batch, dbUp);
        batch := [];
      }
    }
  }
}
