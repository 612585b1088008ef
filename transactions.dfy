/** The `Transaction` record of the consumer, the decoding of a parsed JSON
    object into one (`PostgresProcessor.add_to_batch`, consumer/app.py:73-81),
    the fraud rule, and the fraud count that `save_batch` reports. */
module Transactions {
  import opened Wrappers

  /** Amounts strictly above this are classified as fraud. */
  const FRAUD_THRESHOLD: real := 3000.0

  /** One decoded transaction; `isFraud` is derived at decode time, never read
      from the message. */
  datatype Transaction = Transaction(
    transactionId: string,
    userId: int,
    amount: real,
    timestamp: string,
    isFraud: bool)

  /** The JSON value found under "amount": a number, or something that
      Python's `>` cannot compare with a float. */
  datatype AmountValue = Number(number: real) | NotNumber

  /** A JSON object as `json.loads` returns it, restricted to the four keys the
      consumer looks up; `None` is a missing key. */
  datatype Record = Record(
    transactionId: Option<string>,
    userId: Option<int>,
    amount: Option<AmountValue>,
    timestamp: Option<string>)

  /** What `add_to_batch` raises: a `KeyError` naming the first missing key,
      or a `TypeError` from comparing a non-number with 3000.0. */
  datatype DecodeError = MissingKey(key: string) | AmountNotComparable

  predicate IsFraud(amount: real) {
    amount > FRAUD_THRESHOLD
  }

  predicate HasAllKeys(data: Record) {
    data.transactionId.Some? && data.userId.Some? && data.amount.Some? && data.timestamp.Some?
  }

  /** Builds the transaction the way the dataclass constructor call does:
      the keys are looked up in declaration order, then the amount is compared
      with the threshold. */
  function Decode(data: Record): (r: Result<Transaction, DecodeError>)
    ensures r.Ok? <==> HasAllKeys(data) && data.amount.value.Number?
    ensures r.Ok? ==>
      && r.value.transactionId == data.transactionId.value
      && r.value.userId == data.userId.value
      && r.value.amount == data.amount.value.number
      && r.value.timestamp == data.timestamp.value
    ensures r.Ok? ==> (r.value.isFraud <==> r.value.amount > 3000.0)
    ensures r.Err? && r.error.MissingKey? ==>
      (r.error.key == "transaction_id" && data.transactionId.None?) ||
      (r.error.key == "user_id" && data.userId.None?) ||
      (r.error.key == "amount" && data.amount.None?) ||
      (r.error.key == "timestamp" && data.timestamp.None?)
    ensures r == Err(AmountNotComparable) <==> HasAllKeys(data) && data.amount.value.NotNumber?
  {
    if data.transactionId.None? then Err(MissingKey("transaction_id"))
    else if data.userId.None? then Err(MissingKey("user_id"))
    else if data.amount.None? then Err(MissingKey("amount"))
    else if data.timestamp.None? then Err(MissingKey("timestamp"))
    else match data.amount.value
      case NotNumber => Err(AmountNotComparable)
      case Number(a) =>
        Ok(Transaction(data.transactionId.value, data.userId.value, a, data.timestamp.value, IsFraud(a)))
  }

  /** The threshold is exclusive: exactly 3000.0 is not fraud, anything above is. */
  lemma ThresholdIsExclusive(data: Record, amount: real)
    requires HasAllKeys(data) && data.amount.value == Number(amount)
    ensures Decode(data).Ok?
    ensures amount == 3000.0 ==> !Decode(data).value.isFraud
    ensures amount > 3000.0 ==> Decode(data).value.isFraud
  {
  }

  /** `sum(1 for tx in batch if tx.is_fraud)`. */
  function FraudCount(batch: seq<Transaction>): (n: nat)
    ensures n <= |batch|
    ensures n == 0 <==> forall i :: 0 <= i < |batch| ==> !batch[i].isFraud
    ensures n == |batch| <==> forall i :: 0 <= i < |batch| ==> batch[i].isFraud
  {
    if batch == [] then 0
    else (if batch[0].isFraud then 1 else 0) + FraudCount(batch[1..])
  }

  /** The count is additive over a split of the batch, so it does not depend on
      how the stream is cut into batches. */
  lemma {:induction false} FraudCountAppend(a: seq<Transaction>, b: seq<Transaction>)
    ensures FraudCount(a + b) == FraudCount(a) + FraudCount(b)
  {
    if a == [] {
      assert a + b == b;
    } else {
      assert (a + b)[1..] == a[1..] + b;
      FraudCountAppend(a[1..], b);
    }
  }

  /** The fraud count of `save_batch` is the number of positions of the batch
      that hold a fraud transaction. */
  lemma {:induction false} FraudCountIsFraudIndices(batch: seq<Transaction>)
    ensures FraudCount(batch) == |set i | 0 <= i < |batch| && batch[i].isFraud|
    decreases |batch|
  {
    if batch != [] {
      var n := |batch| - 1;
      var init := batch[..n];
      assert init + [batch[n]] == batch;
      FraudCountIsFraudIndices(init);
      FraudCountAppend(init, [batch[n]]);
      var before := set i | 0 <= i < n && init[i].isFraud;
      var all := set i | 0 <= i < |batch| && batch[i].isFraud;
      if batch[n].isFraud {
        assert all == before + {n};
      } else {
        assert all == before;
      }
    }
  }
}
