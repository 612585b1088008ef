# Transaction consumer: batching pipeline model

This project models the consumer side of a Kafka-to-PostgreSQL fraud-flagging
pipeline (`consumer/app.py`). The consumer polls a topic. It decodes each JSON
message into a `Transaction` and flags it as fraud when `amount > 3000.0`. It
buffers transactions in a bounded in-memory batch and writes each full batch to
a `transactions` table with `INSERT ... ON CONFLICT (transaction_id) DO
NOTHING`. It commits each message's offset by hand. On exit it drains whatever
is still buffered.

Modules, one per component:

- `Wrappers` (`wrappers.dfy`): `Option` and `Result`.
- `Transactions` (`transactions.dfy`): the `Transaction` record. `Decode` is the
  constructor call in `add_to_batch`, with its `KeyError` and `TypeError` paths
  as `Err` values. It also holds the fraud rule and the fraud count that
  `save_batch` reports.
- `Store` (`store.dfy`): the row tuples of `save_batch`, built by a loop
  (`BuildRows`). The table is a map from `transaction_id` to row, and
  `executemany` is modelled as insert-if-absent applied row by row.
- `Processor` (`processor.dfy`): the `PostgresProcessor` class. Its `batch` and
  `table` fields are updated in place by `AddToBatch`, `SaveBatch`,
  `ProcessBatchIfReady` and `FlushRemaining`. `Save` is the specification of
  one `save_batch` call.
- `Pipeline` (`pipeline.dfy`): the `consume` loop. `Next` is one iteration over
  an abstract poll event, and `Replay` folds `Next` over a sequence of events.
  The `Consumer` class holds the loop state: the processor, `start_time`,
  `processed_count`, and an ordered log of saves and commits. `Consume` is the
  whole run: set-up, then the loop, then the `finally` drain.
- `Scenarios` (`scenarios.dfy`): end-to-end runs over small, concrete event
  sequences.

Each loop iteration receives an `Event`: what `poll` returned, plus `dbUp`,
which says whether the database accepts a write during that iteration. The
event sequence ends where the interrupt arrives. Time is a real number of
seconds.

The model follows what the code does, including three places where that
differs from what its comments or a reader might expect:

- The comment on the timeout arm (`consumer/app.py:122`) and its message at
  `:124` speak of processing the partial batch. But the arm calls
  `process_batch_if_ready`, which saves only a batch that has reached
  `batch_size`. The buffer is never that full at the top of the loop, so a
  timeout never saves anything; it only restarts the timer. See
  `TimeoutNeverSavesPartialBatch` and `TimeoutKeepsPartialBatch`.
- The comment at `:145` says the offset is committed for each message. But a
  record that fails decoding raises in `add_to_batch` before the commit, so its
  offset is never committed. A payload that `json.loads` rejects is not
  committed either. See `UndecodableRecordNotCommitted` and
  `UnparsedMessageIgnored`.
- `process_batch_if_ready` clears the buffer before `save_batch` runs, and
  `save_batch` catches every error. So when the save fails, the batch is gone
  from memory and its rows are not in the table. Every message of the batch
  but the one that filled it was committed before the save, and that last one
  is committed right after the failed save. See
  `FailedSaveDropsCommittedBatch`.

## Model

| member | source | states |
|---|---|---|
| `Transactions.Decode` | consumer/app.py:73-81 | The result is a transaction exactly when all four keys are present and the amount is a number. The four fields are copied from the record unchanged, and `isFraud` holds exactly when the amount exceeds 3000.0. A reported missing key is in fact missing. A non-numeric amount gives the comparison error. |
| `Transactions.ThresholdIsExclusive` | consumer/app.py:80 | An amount of exactly 3000.0 is not fraud. Any larger amount is fraud. |
| `Transactions.FraudCount` | consumer/app.py:66 | The count is at most the batch length. It is zero exactly when no transaction is fraud, and equals the length exactly when every transaction is fraud. |
| `Transactions.FraudCountAppend` | consumer/app.py:66 | The fraud count of a concatenation is the sum of the counts of its parts. |
| `Transactions.FraudCountIsFraudIndices` | consumer/app.py:66 | The fraud count equals the number of batch positions holding a fraud transaction. |
| `Store.BuildRows` | consumer/app.py:48-53 | It builds one row per transaction, in batch order. Each row carries the transaction's id, user, amount, timestamp and fraud flag. |
| `Store.FirstWithId` | consumer/app.py:56-61 | It returns the first row carrying the id. No earlier row has that id. |
| `Store.ExecuteMany` | consumer/app.py:56-61 | The upsert adds exactly the ids of the rows and never changes a row already in the table. A new id holds the first row of the batch that carried it. It applies `Store.InsertIfAbsent`, one `ON CONFLICT DO NOTHING` insert, row by row. |
| `Store.ExecuteManyConcat` | consumer/app.py:56-61 | Running two row lists one after the other is the same as running their concatenation. |
| `Store.ExecuteManyPresent` | consumer/app.py:60 | Rows whose ids are all in the table already leave the table unchanged. |
| `Store.ExecuteManyIdempotent` | consumer/app.py:56-61 | Upserting the same rows twice gives the same table as upserting them once. |
| `Processor.SaveReportsAttempt` | consumer/app.py:41-71 | An empty batch does nothing. Any other batch logs exactly one attempt carrying the whole batch. The attempt is reported stored exactly when the database was up, with the number of fraud positions as its count. |
| `Processor.SaveKeepsExistingRows` | consumer/app.py:45-71 | A save never changes a row already in the table. A failed save changes nothing. |
| `Processor.SaveStoresBatch` | consumer/app.py:48-61 | After a successful save, every transaction's id is in the table. Every row the save added is the row of a transaction in the batch. |
| `Processor.PostgresProcessor.constructor` | consumer/app.py:27-30 | It sets the given batch size, an empty batch, and the existing table. |
| `Processor.PostgresProcessor.AddToBatch` | consumer/app.py:73-89 | A decodable record appends exactly one transaction at the end, and the result is true exactly when the new length is at least `batch_size`. An undecodable record leaves the buffer unchanged and returns the error. |
| `Processor.PostgresProcessor.SaveBatch` | consumer/app.py:41-71 | The new table and the logged effects are those of the specification function `Processor.Save` on the old table. `Save` returns early on an empty batch, runs `ExecuteMany` on the batch's rows when the database is up, and logs one attempt with its outcome; its properties are the three `Save...` lemmas above. |
| `Processor.PostgresProcessor.ProcessBatchIfReady` | consumer/app.py:91-96 | If the buffer is full, the whole buffer, in order, is handed to `Save`, and the buffer is empty afterwards whatever the outcome. Otherwise nothing changes. On the loop state, the same step is the function `Pipeline.FlushIfFull`. |
| `Processor.PostgresProcessor.FlushRemaining` | consumer/app.py:98-102 | The whole buffer is handed to `Save`, and the buffer is empty afterwards. On the loop state, the same step is the function `Pipeline.Drain`. |
| `Pipeline.NextKeepsBelowCapacity` | consumer/app.py:117-143 | With `batch_size >= 1`, one iteration keeps the buffer strictly below `batch_size`. |
| `Pipeline.ReplayKeepsBelowCapacity` | consumer/app.py:117-143 | With `batch_size >= 1`, the buffer is below `batch_size` at the top of every iteration of any run. |
| `Pipeline.TimeoutNeverSavesPartialBatch` | consumer/app.py:121-128 | An empty poll with more than 30 seconds elapsed and a non-empty buffer only restarts the timer. Any other empty poll changes nothing. It never saves. |
| `Pipeline.UnparsedMessageIgnored` | consumer/app.py:130-149 | A broker error, or a payload that JSON decoding rejects, changes nothing: it is not buffered, committed or counted. |
| `Pipeline.UndecodableRecordNotCommitted` | consumer/app.py:134-149 | A parsed record that fails decoding is counted, but it is neither buffered nor committed. |
| `Pipeline.DecodedMessageCommittedLast` | consumer/app.py:136-146 | A decoded message is appended. If that fills the buffer, the whole buffer is saved and the timer restarts. The commit is the last effect, after any save. |
| `Pipeline.DrainSavesRemainder` | consumer/app.py:98-102 | The drain empties the buffer. A non-empty remainder is saved whole, after everything already logged. |
| `Pipeline.ReplaySavesOrBuffersAll` | consumer/app.py:116-146 | Over any run, the saved batches followed by the buffer are the earlier ones extended by every decoded transaction, each exactly once and in arrival order. |
| `Pipeline.ReplayCommitsDecoded` | consumer/app.py:139-146 | Over any run, exactly the messages whose record decoded are committed, in arrival order. |
| `Pipeline.ReplayCountsAndKeepsRows` | consumer/app.py:134-136 | `processed_count` grows by the number of payloads that parsed. No row already in the table changes. |
| `Pipeline.AcceptedPairsWithOffsets` | consumer/app.py:139-146 | The `k`-th committed offset is that of a message whose record decoded to the `k`-th transaction handed to the batch. |
| `Pipeline.Consumer.constructor` | consumer/app.py:110-114 | It starts with an empty buffer, the existing table, the timer at the start time, a zero count and an empty log. |
| `Pipeline.Consumer.Step` | consumer/app.py:117-149 | The new state is the specification function `Pipeline.Next` of the old state and the event. `Next` is one loop iteration: the timeout arm, the error arm, the parse, the append, the save when full, and the commit. `Pipeline.Replay` folds it over a run, and the `Next...` and `Replay...` lemmas state its properties. |
| `Pipeline.Consumer.Shutdown` | consumer/app.py:155-157 | The new state is `Pipeline.Drain` of the old one. `DrainSavesRemainder` states its properties. |
| `Pipeline.Consume` | consumer/app.py:106-159 | It uses batch size 5. The returned table, count and log are those of the drain after replaying all events from an empty buffer. |
| `Pipeline.ConsumeHandsEveryTransactionToSave` | consumer/app.py:106-159 | After `consume` ends, the buffer is empty. Every decoded transaction has been handed to `save_batch` exactly once, in order. Exactly the decoded messages are committed, in order. The count is the number of parsed payloads, and earlier rows are unchanged. |
| `Scenarios.ReplayBuffered` | consumer/app.py:139-146 | Fewer messages than the batch size are all buffered and committed in order, and nothing is saved. |
| `Scenarios.FullBatchOfFive` | consumer/app.py:139-146 | Amounts 100, 3500, 50, 4000 and 10 with batch size 5 give four commits, one save of all five with fraud count 2, then the fifth commit. The timer restarts, and the table holds the five ids. |
| `Scenarios.TimeoutKeepsPartialBatch` | consumer/app.py:121-128 | Two messages, then an empty poll 38 seconds in: nothing is saved, the timer restarts, and both transactions stay buffered. |
| `Scenarios.ShutdownSavesRemainder` | consumer/app.py:155-157 | Three messages, then the interrupt: one final save of all three follows the three commits. Amount 3000.0 is not fraud and 3000.5 is. |
| `Scenarios.FailedSaveDropsCommittedBatch` | consumer/app.py:91-96 | If the save triggered by the fifth message fails, all five messages are committed, the buffer is empty, and the table stays empty. |
| `Scenarios.MissingKeySkipsMessage` | consumer/app.py:75-83 | A record without `user_id` is counted but neither buffered nor committed, and the next message is handled normally. |

## Left out

- The Kafka client is not modelled: consumer construction, subscribe, the 1-second poll wait, commit and close. A poll is an abstract event, and a commit is an entry in the effect log. A failing commit is not modelled.
- asyncpg is not modelled: pool creation, `init_db`, the DDL file, and the SQL round trip. The table is an abstract map. Whether a save's database work succeeds is the event's `dbUp` flag. A failed `executemany` leaves the table unchanged, because the call is atomic.
- JSON and UTF-8 decoding are abstracted to "parsed record or malformed". A parsed value that is not an object fails its first key lookup, like a record with every key missing.
- Field types are not checked: only the amount's type matters in the model. Python copies a wrongly typed `transaction_id`, `user_id` or `timestamp` into the transaction unchecked. The model's record fields already have the declared types.
- Python floats and `datetime` are not modelled. Amounts and times are mathematical reals, so float rounding at the threshold is not modelled.
- asyncio is not modelled: every `await` is a plain call.
- An interrupt or other exception that arrives in the middle of an iteration is not modelled. The interrupt arrives between iterations, at the end of the event sequence.
- Configuration and dotenv loading, and all printing, are not modelled.
- producer/app.py is not part of this model. It is an independent generator of random events with no stateable logic.
- `Transactions.Decode`: its contract says that a reported missing key is missing. It does not say that this is the first missing key in lookup order, because the consumer discards the error.
