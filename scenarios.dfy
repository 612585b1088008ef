/** End-to-end runs of the consumer loop over small, concrete event sequences,
    starting from an empty buffer, an empty table and the timer at 0. */
module Scenarios {
  import opened Wrappers
  import opened Transactions
  import opened Store
  import opened Processor
  import opened Pipeline

  const START: Snapshot := Snapshot([], map[], 0.0, 0, [])

  function Tx(id: string, amount: real): Transaction {
    Transaction(id, 7, amount, "2024-01-01T00:00:00", amount > 3000.0)
  }

  function Msg(offset: nat, id: string, amount: real, now: real): Event {
    Event(Message(offset, Parsed(Record(Some(id), Some(7), Some(Number(amount)), Some("2024-01-01T00:00:00"))), now), true)
  }

  /** Message i carries offset i, arrives at second i + 1 and holds the i-th
      (id, amount) pair. */
  function Msgs(items: seq<(string, real)>): seq<Event> {
    seq(|items|, i requires 0 <= i < |items| => Msg(i, items[i].0, items[i].1, (i + 1) as real))
  }

  function Txs(items: seq<(string, real)>): seq<Transaction> {
    seq(|items|, i requires 0 <= i < |items| => Tx(items[i].0, items[i].1))
  }

  function CommitsUpTo(n: nat): seq<Effect> {
    seq(n, i requires 0 <= i < n => Committed(i))
  }

  lemma ReplayAppend(batchSize: int, s: Snapshot, events: seq<Event>, e: Event)
    ensures Replay(batchSize, s, events + [e]) == Next(batchSize, Replay(batchSize, s, events), e)
  {
    assert (events + [e])[..|events|] == events;
  }

  lemma DecodeMsg(offset: nat, id: string, amount: real, now: real)
    ensures Msg(offset, id, amount, now).poll.payload.Parsed?
    ensures Decode(Msg(offset, id, amount, now).poll.payload.data) == Ok(Tx(id, amount))
  {
  }

  /** Fewer messages than the batch size are all buffered and committed, in
      order, and nothing is saved. */
  lemma {:induction false} ReplayBuffered(items: seq<(string, real)>)
    requires |items| < CONSUMER_BATCH_SIZE
    ensures Replay(CONSUMER_BATCH_SIZE, START, Msgs(items)) ==
      Snapshot(Txs(items), map[], 0.0, |items|, CommitsUpTo(|items|))
    decreases |items|
  {
    if items != [] {
      var n := |items| - 1;
      ReplayBuffered(items[..n]);
      assert Msgs(items) == Msgs(items[..n]) + [Msg(n, items[n].0, items[n].1, (n + 1) as real)];
      ReplayAppend(CONSUMER_BATCH_SIZE, START, Msgs(items[..n]), Msg(n, items[n].0, items[n].1, (n + 1) as real));
      DecodeMsg(n, items[n].0, items[n].1, (n + 1) as real);
      assert Txs(items) == Txs(items[..n]) + [Tx(items[n].0, items[n].1)];
      assert CommitsUpTo(|items|) == CommitsUpTo(n) + [Committed(n)];
    }
  }

  /** A message that fills the buffer is appended, the whole buffer is saved,
      the timer restarts, and the message is committed last. */
  lemma FillingStep(s: Snapshot, offset: nat, id: string, amount: real, now: real)
    requires |s.batch| + 1 == CONSUMER_BATCH_SIZE
    ensures var saved := Save(s.table, s.batch + [Tx(id, amount)], true);
            Next(CONSUMER_BATCH_SIZE, s, Msg(offset, id, amount, now)) ==
              s.(batch := [], table := saved.table, startTime := now, processedCount := s.processedCount + 1,
                 log := s.log + saved.effects + [Committed(offset)])
  {
    DecodeMsg(offset, id, amount, now);
  }

  /** A successful save into an empty table stores exactly the batch's ids. */
  lemma SavedKeys(batch: seq<Transaction>)
    ensures Save(map[], batch, true).table.Keys == set i | 0 <= i < |batch| :: batch[i].transactionId
  {
    var t := Save(map[], batch, true).table;
    SaveStoresBatch(map[], batch, true);
    forall id | id in t ensures id in set i | 0 <= i < |batch| :: batch[i].transactionId {
      var i :| 0 <= i < |batch| && batch[i].transactionId == id && t[id] == ToRow(batch[i]);
    }
  }

  lemma IdsOfFive(txs: seq<Transaction>)
    requires txs == [Tx("a", 100.0), Tx("b", 3500.0), Tx("c", 50.0), Tx("d", 4000.0), Tx("e", 10.0)]
    ensures (set i | 0 <= i < |txs| :: txs[i].transactionId) == {"a", "b", "c", "d", "e"}
  {
    var ids := set i | 0 <= i < |txs| :: txs[i].transactionId;
    assert txs[0].transactionId == "a" && txs[1].transactionId == "b" && txs[2].transactionId == "c";
    assert txs[3].transactionId == "d" && txs[4].transactionId == "e";
    forall id | id in ids ensures id in {"a", "b", "c", "d", "e"} {
      var i :| 0 <= i < |txs| && txs[i].transactionId == id;
      assert i == 0 || i == 1 || i == 2 || i == 3 || i == 4;
    }
  }

  lemma IdsOfThree(txs: seq<Transaction>)
    requires txs == [Tx("a", 100.0), Tx("b", 3000.0), Tx("c", 3000.5)]
    ensures (set i | 0 <= i < |txs| :: txs[i].transactionId) == {"a", "b", "c"}
  {
    var ids := set i | 0 <= i < |txs| :: txs[i].transactionId;
    assert txs[0].transactionId == "a" && txs[1].transactionId == "b" && txs[2].transactionId == "c";
    forall id | id in ids ensures id in {"a", "b", "c"} {
      var i :| 0 <= i < |txs| && txs[i].transactionId == id;
      assert i == 0 || i == 1 || i == 2;
    }
  }

  /** The save of the five transactions [100, 3500, 50, 4000, 10]: two fraud
      rows, five keys. */
  lemma SaveOfFive(txs: seq<Transaction>)
    requires txs == [Tx("a", 100.0), Tx("b", 3500.0), Tx("c", 50.0), Tx("d", 4000.0), Tx("e", 10.0)]
    ensures var saved := Save(map[], txs, true);
            && saved.effects == [SaveAttempted(txs, Stored(2))]
            && saved.table.Keys == {"a", "b", "c", "d", "e"}
  {
    assert txs[4..][1..] == [] && txs[3..][1..] == txs[4..] && txs[2..][1..] == txs[3..];
    assert txs[1..][1..] == txs[2..];
    assert FraudCount(txs[4..]) == 0;
    assert FraudCount(txs[3..]) == 1;
    assert FraudCount(txs[2..]) == 1;
    assert FraudCount(txs[1..]) == 2;
    SavedKeys(txs);
    IdsOfFive(txs);
  }

  /** The run of five messages, in terms of the save it performs. */
  lemma RunOfFive()
    ensures var items := [("a", 100.0), ("b", 3500.0), ("c", 50.0), ("d", 4000.0), ("e", 10.0)];
            var saved := Save(map[], Txs(items), true);
            Replay(CONSUMER_BATCH_SIZE, START, Msgs(items)) ==
              Snapshot([], saved.table, 5.0, 5, CommitsUpTo(4) + saved.effects + [Committed(4)])
  {
    var items := [("a", 100.0), ("b", 3500.0), ("c", 50.0), ("d", 4000.0), ("e", 10.0)];
    var s4 := Replay(CONSUMER_BATCH_SIZE, START, Msgs(items[..4]));
    ReplayBuffered(items[..4]);
    assert Msgs(items) == Msgs(items[..4]) + [Msg(4, "e", 10.0, 5.0)];
    ReplayAppend(CONSUMER_BATCH_SIZE, START, Msgs(items[..4]), Msg(4, "e", 10.0, 5.0));
    FillingStep(s4, 4, "e", 10.0, 5.0);
    assert s4.batch + [Tx("e", 10.0)] == Txs(items);
  }

  /** Five messages with amounts 100, 3500, 50, 4000 and 10 and a batch size of
      five: four commits, then one save of all five holding two fraud rows,
      then the fifth commit; the timer restarts at the fifth message. */
  lemma FullBatchOfFive()
    ensures var items := [("a", 100.0), ("b", 3500.0), ("c", 50.0), ("d", 4000.0), ("e", 10.0)];
            var r := Replay(CONSUMER_BATCH_SIZE, START, Msgs(items));
            && r.batch == []
            && r.startTime == 5.0
            && r.processedCount == 5
            && r.log == CommitsUpTo(4) + [SaveAttempted(Txs(items), Stored(2)), Committed(4)]
            && r.table.Keys == {"a", "b", "c", "d", "e"}
  {
    var items := [("a", 100.0), ("b", 3500.0), ("c", 50.0), ("d", 4000.0), ("e", 10.0)];
    var txs := Txs(items);
    assert |txs| == 5;
    assert txs == [Tx("a", 100.0), Tx("b", 3500.0), Tx("c", 50.0), Tx("d", 4000.0), Tx("e", 10.0)] by {
      assert txs[0] == Tx("a", 100.0) && txs[1] == Tx("b", 3500.0) && txs[2] == Tx("c", 50.0);
      assert txs[3] == Tx("d", 4000.0) && txs[4] == Tx("e", 10.0);
    }
    RunOfFive();
    SaveOfFive(txs);
  }

  /** Two messages, then an empty poll 38 seconds after the last flush: the
      timeout arm runs but saves nothing; it restarts the timer and the two
      transactions stay buffered. */
  lemma TimeoutKeepsPartialBatch()
    ensures var items := [("a", 100.0), ("b", 200.0)];
            var r := Replay(CONSUMER_BATCH_SIZE, START, Msgs(items) + [Event(NoMessage(38.0), true)]);
            && r.batch == [Tx("a", 100.0), Tx("b", 200.0)]
            && r.startTime == 38.0
            && r.log == [Committed(0), Committed(1)]
            && r.table == map[]
  {
    var items := [("a", 100.0), ("b", 200.0)];
    ReplayBuffered(items);
    ReplayAppend(CONSUMER_BATCH_SIZE, START, Msgs(items), Event(NoMessage(38.0), true));
  }

  /** Three messages, then the interrupt: the drain saves all three in one
      final call, after their three commits; 3000.0 is not fraud, 3000.5 is. */
  lemma ShutdownSavesRemainder()
    ensures var items := [("a", 100.0), ("b", 3000.0), ("c", 3000.5)];
            var r := Drain(Replay(CONSUMER_BATCH_SIZE, START, Msgs(items)), true);
            && r.batch == []
            && r.log == [Committed(0), Committed(1), Committed(2), SaveAttempted(Txs(items), Stored(1))]
            && r.table.Keys == {"a", "b", "c"}
  {
    var items := [("a", 100.0), ("b", 3000.0), ("c", 3000.5)];
    var txs := Txs(items);
    assert txs == [Tx("a", 100.0), Tx("b", 3000.0), Tx("c", 3000.5)] by {
      assert txs[0] == Tx("a", 100.0) && txs[1] == Tx("b", 3000.0) && txs[2] == Tx("c", 3000.5);
    }
    ReplayBuffered(items);
    var m := Replay(CONSUMER_BATCH_SIZE, START, Msgs(items));
    assert m == Snapshot(txs, map[], 0.0, 3, CommitsUpTo(3));
    assert CommitsUpTo(3) == [Committed(0), Committed(1), Committed(2)];
    SaveOfThree(txs);
  }

  lemma SaveOfThree(txs: seq<Transaction>)
    requires txs == [Tx("a", 100.0), Tx("b", 3000.0), Tx("c", 3000.5)]
    ensures var saved := Save(map[], txs, true);
            && saved.effects == [SaveAttempted(txs, Stored(1))]
            && saved.table.Keys == {"a", "b", "c"}
  {
    assert txs[2..][1..] == [] && txs[1..][1..] == txs[2..];
    assert FraudCount(txs[2..]) == 1;
    assert FraudCount(txs[1..]) == 1;
    SavedKeys(txs);
    IdsOfThree(txs);
  }

  /** A save that fails after the buffer was cleared loses the batch: the
      message that filled the buffer is committed after the failed save, and
      none of the five transactions is left in the table or the buffer. */
  lemma FailedSaveDropsCommittedBatch()
    ensures var items := [("a", 100.0), ("b", 3500.0), ("c", 50.0), ("d", 4000.0)];
            var last := Msg(4, "e", 10.0, 5.0).(dbUp := false);
            var r := Replay(CONSUMER_BATCH_SIZE, START, Msgs(items) + [last]);
            && r.batch == []
            && r.table == map[]
            && r.log == CommitsUpTo(4) + [SaveAttempted(Txs(items) + [Tx("e", 10.0)], Failed), Committed(4)]
  {
    var items := [("a", 100.0), ("b", 3500.0), ("c", 50.0), ("d", 4000.0)];
    var last := Msg(4, "e", 10.0, 5.0).(dbUp := false);
    ReplayBuffered(items);
    ReplayAppend(CONSUMER_BATCH_SIZE, START, Msgs(items), last);
    DecodeMsg(4, "e", 10.0, 5.0);
  }

  /** A record without "user_id" is counted but neither buffered nor
      committed; the next message is processed as usual. */
  lemma MissingKeySkipsMessage()
    ensures var bad := Event(Message(0, Parsed(Record(Some("a"), None, Some(Number(5.0)), Some("t"))), 1.0), true);
            var r := Replay(CONSUMER_BATCH_SIZE, START, [bad, Msg(1, "b", 200.0, 2.0)]);
            && r.processedCount == 2
            && r.batch == [Tx("b", 200.0)]
            && r.log == [Committed(1)]
  {
    var bad := Event(Message(0, Parsed(Record(Some("a"), None, Some(Number(5.0)), Some("t"))), 1.0), true);
    var good := Msg(1, "b", 200.0, 2.0);
    ReplayAppend(CONSUMER_BATCH_SIZE, START, [], bad);
    assert [bad] + [good] == [bad, good];
    ReplayAppend(CONSUMER_BATCH_SIZE, START, [bad], good);
    DecodeMsg(1, "b", 200.0, 2.0);
  }
}
