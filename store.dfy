/** The row-building half of `save_batch` (consumer/app.py:48-53) and the
    `transactions` table as the upsert `INSERT ... ON CONFLICT (transaction_id)
    DO NOTHING` sees it: a map from transaction id to row, written
    insert-if-absent, one row after the other as `executemany` runs them. */
module Store {
  import opened Transactions

  /** One parameter tuple `($1, ..., $5)` of the batch insert. */
  datatype Row = Row(
    transactionId: string,
    userId: int,
    amount: real,
    timestamp: string,
    isFraud: bool)

  /** The table, keyed by its unique column `transaction_id`. */
  type Table = map<string, Row>

  function ToRow(tx: Transaction): Row {
    Row(tx.transactionId, tx.userId, tx.amount, tx.timestamp, tx.isFraud)
  }

  /** The rows of a batch, one per transaction, in batch order. */
  function Rows(batch: seq<Transaction>): seq<Row> {
    seq(|batch|, i requires 0 <= i < |batch| => ToRow(batch[i]))
  }

  /** The `values` list of `save_batch`, built by its `for` loop. */
  method BuildRows(batch: seq<Transaction>) returns (values: seq<Row>)
    ensures |values| == |batch|
    ensures forall i :: 0 <= i < |batch| ==>
      && values[i].transactionId == batch[i].transactionId
      && values[i].userId == batch[i].userId
      && values[i].amount == batch[i].amount
      && values[i].timestamp == batch[i].timestamp
      && values[i].isFraud == batch[i].isFraud
    ensures values == Rows(batch)
  {
    values := [];
    for k := 0 to |batch|
      invariant |values| == k
      invariant forall i :: 0 <= i < k ==> values[i] == ToRow(batch[i])
    {
      values := values + [ToRow(batch[k])];
    }
  }

  /** The ids that a sequence of rows carries. */
  function Ids(rows: seq<Row>): set<string> {
    if rows == [] then {} else {rows[0].transactionId} + Ids(rows[1..])
  }

  lemma {:induction false} IdsOfRows(batch: seq<Transaction>, id: string)
    ensures id in Ids(Rows(batch)) <==> exists i :: 0 <= i < |batch| && batch[i].transactionId == id
  {
    if batch != [] {
      assert Rows(batch)[1..] == Rows(batch[1..]);
      IdsOfRows(batch[1..], id);
      if id in Ids(Rows(batch[1..])) {
        var i :| 0 <= i < |batch[1..]| && batch[1..][i].transactionId == id;
        assert batch[i + 1].transactionId == id;
      }
      if exists i :: 0 <= i < |batch| && batch[i].transactionId == id {
        var i :| 0 <= i < |batch| && batch[i].transactionId == id;
        if i > 0 {
          assert batch[1..][i - 1].transactionId == id;
        }
      }
    }
  }

  /** The first row of `rows` whose id is `id`: the one that wins when a batch
      repeats an id, since the later ones conflict with it. */
  function FirstWithId(rows: seq<Row>, id: string): (r: Row)
    requires id in Ids(rows)
    ensures r.transactionId == id
    ensures exists i :: 0 <= i < |rows| && rows[i] == r &&
                        (forall j :: 0 <= j < i ==> rows[j].transactionId != id)
  {
    if rows[0].transactionId == id then rows[0]
    else
      var r := FirstWithId(rows[1..], id);
      var i :| 0 <= i < |rows[1..]| && rows[1..][i] == r &&
               (forall j :: 0 <= j < i ==> rows[1..][j].transactionId != id);
      assert rows[i + 1] == r;
      assert forall j :: 0 <= j < i + 1 ==> rows[j].transactionId != id by {
        forall j | 0 <= j < i + 1 ensures rows[j].transactionId != id {
          if j > 0 { assert rows[j] == rows[1..][j - 1]; }
        }
      }
      r
  }

  /** One `INSERT ... ON CONFLICT (transaction_id) DO NOTHING`. */
  function InsertIfAbsent(table: Table, row: Row): Table {
    if row.transactionId in table then table else table[row.transactionId := row]
  }

  /** `executemany` of the insert over `rows`, first to last. Rows already in the
      table are never changed; every id of `rows` is present afterwards, and a new
      id holds the first row that carried it. */
  function ExecuteMany(table: Table, rows: seq<Row>): (r: Table)
    ensures r.Keys == table.Keys + Ids(rows)
    ensures forall id :: id in table ==> r[id] == table[id]
    ensures forall id :: id in r && id !in table ==> id in Ids(rows) && r[id] == FirstWithId(rows, id)
    decreases |rows|
  {
    if rows == [] then table
    else
      var r := ExecuteMany(InsertIfAbsent(table, rows[0]), rows[1..]);
      assert forall id :: id in r && id !in table && id != rows[0].transactionId ==>
        FirstWithId(rows, id) == FirstWithId(rows[1..], id);
      r
  }

  /** Running the statements of two lists one after the other is running their
      concatenation. */
  lemma {:induction false} ExecuteManyConcat(table: Table, a: seq<Row>, b: seq<Row>)
    ensures ExecuteMany(table, a + b) == ExecuteMany(ExecuteMany(table, a), b)
    decreases |a|
  {
    if a == [] {
      assert a + b == b;
    } else {
      assert (a + b)[1..] == a[1..] + b;
      ExecuteManyConcat(InsertIfAbsent(table, a[0]), a[1..], b);
    }
  }

  /** Rows whose ids are all present already change nothing. */
  lemma {:induction false} ExecuteManyPresent(table: Table, rows: seq<Row>)
    requires Ids(rows) <= table.Keys
    ensures ExecuteMany(table, rows) == table
  {
    if rows != [] {
      ExecuteManyPresent(table, rows[1..]);
    }
  }

  /** Replaying a batch that was already stored leaves the table as it is: the
      upsert is idempotent, which is what makes redelivery safe. */
  lemma ExecuteManyIdempotent(table: Table, rows: seq<Row>)
    ensures ExecuteMany(ExecuteMany(table, rows), rows) == ExecuteMany(table, rows)
  {
    ExecuteManyPresent(ExecuteMany(table, rows), rows);
  }
}
