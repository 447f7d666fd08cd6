/**
 * The transaction log kept by `confirmTx`: records are appended in
 * insertion order and their `status` is rewritten in place.
 */
module TxLog {
  import opened Wrappers
  import opened JsValues

  const Pending: string := "pending"
  const Confirmed: string := "confirmed"
  const Failed: string := "failed"

  /**
   * One entry of `this.transactions`.  Records read back from storage may miss
   * fields; a missing text field is the empty string (both are falsy).
   */
  datatype TxRecord = TxRecord(
    hash: string,
    txType: string,
    to: string,
    from: string,
    spender: string,
    amount: string,
    status: string,
    timestamp: int)

  /** The parameters of `eth_sendTransaction` that the controller reads. */
  datatype TxParams = TxParams(to: JsValue, value: JsValue, gas: JsValue)

  /** Values with a `slice` method: `txParams.to.slice(0, 6)` throws a TypeError on anything else. */
  predicate Sliceable(v: JsValue) {
    v.Str? || v.Arr?
  }

  /**
   * What the confirmation screen does with the payload before `_pendingTx` is
   * set: it slices `to`, then formats `value || '0'` with `formatEther`.
   * Either one throwing leaves the slot empty and is what the caller sees.
   */
  function ReadTxParams(v: JsValue, formatEther: JsValue -> Result<string, Error>): (r: Result<TxParams, Error>)
    ensures r.Ok? <==> Sliceable(Prop(v, "to")) && formatEther(Or(Prop(v, "value"), Str("0"))).Ok?
    ensures !Sliceable(Prop(v, "to")) ==> r == Err(TypeError)
    ensures Sliceable(Prop(v, "to")) && formatEther(Or(Prop(v, "value"), Str("0"))).Err? ==>
      r == Err(formatEther(Or(Prop(v, "value"), Str("0"))).error)
    ensures r.Ok? ==> r.value.to == Prop(v, "to") && r.value.value == Prop(v, "value") && r.value.gas == Prop(v, "gas")
  {
    if !Sliceable(Prop(v, "to")) then Err(TypeError)
    else match formatEther(Or(Prop(v, "value"), Str("0")))
      case Err(e) => Err(e)
      case Ok(_) => Ok(TxParams(Prop(v, "to"), Prop(v, "value"), Prop(v, "gas")))
  }

  /** The transaction `confirmTx` hands to the signer. */
  datatype SentTx = SentTx(to: JsValue, value: JsValue, gasLimit: JsValue)

  /** `{ to, value: value || 0, gasLimit: gas || '21000' }`. */
  function Outgoing(p: TxParams): (s: SentTx)
    ensures s.to == p.to
    ensures Truthy(p.value) ==> s.value == p.value
    ensures !Truthy(p.value) ==> s.value == Num(0)
    ensures Truthy(p.gas) ==> s.gasLimit == p.gas
    ensures !Truthy(p.gas) ==> s.gasLimit == Str("21000")
  {
    SentTx(p.to, Or(p.value, Num(0)), Or(p.gas, Str("21000")))
  }

  /** The record `confirmTx` pushes once the network accepted the transaction. */
  function NewRecord(hash: string, p: TxParams, amount: string, now: int): (r: TxRecord)
    ensures r.hash == hash && r.txType == "send" && r.status == Pending
    ensures r.amount == amount && r.timestamp == now
    ensures p.to.Str? ==> r.to == p.to.s
    ensures r.from == "" && r.spender == ""
  {
    TxRecord(hash, "send", if p.to.Str? then p.to.s else "", "", "", amount, Pending, now)
  }

  /** `findIndex(t => t.hash === hash)`: the first matching position, or -1. */
  function FindIndex(txs: seq<TxRecord>, hash: string): (k: int)
    ensures -1 <= k < |txs|
    ensures k == -1 <==> forall i :: 0 <= i < |txs| ==> txs[i].hash != hash
    ensures k >= 0 ==> txs[k].hash == hash && forall i :: 0 <= i < k ==> txs[i].hash != hash
  {
    if txs == [] then -1
    else if txs[0].hash == hash then 0
    else
      var k := FindIndex(txs[1..], hash);
      if k == -1 then -1 else k + 1
  }

  /** After a receipt: the first record with the hash becomes confirmed, whatever its status was. */
  function MarkConfirmed(txs: seq<TxRecord>, hash: string): (r: seq<TxRecord>)
    ensures |r| == |txs|
    ensures forall i :: 0 <= i < |txs| && txs[i].hash != hash ==> r[i] == txs[i]
    ensures forall i :: 0 <= i < |txs| && txs[i].hash == hash ==>
      r[i] == if i == FindIndex(txs, hash) then txs[i].(status := Confirmed) else txs[i]
  {
    var k := FindIndex(txs, hash);
    if k == -1 then txs else txs[k := txs[k].(status := Confirmed)]
  }

  /** After an error: only the last record may change, and only from pending to failed. */
  function MarkLastFailed(txs: seq<TxRecord>): (r: seq<TxRecord>)
    ensures |r| == |txs|
    ensures forall i :: 0 <= i < |txs| - 1 ==> r[i] == txs[i]
    ensures |txs| > 0 && txs[|txs| - 1].status == Pending ==> r[|txs| - 1] == txs[|txs| - 1].(status := Failed)
    ensures |txs| > 0 && txs[|txs| - 1].status != Pending ==> r == txs
  {
    if |txs| > 0 && txs[|txs| - 1].status == Pending
    then txs[|txs| - 1 := txs[|txs| - 1].(status := Failed)]
    else txs
  }

  /** What the network did with a confirmed transaction. */
  datatype TxOutcome =
    | SubmitFailed(error: Error)                 // `sendTransaction` threw
    | ReceiptOk(hash: string)                    // submitted, and `tx.wait()` returned
    | ReceiptFailed(hash: string, error: Error)  // submitted, and `tx.wait()` threw

  /** The log after `confirmTx` ran to the end with the given outcome. */
  function LogAfterConfirm(txs: seq<TxRecord>, p: TxParams, amount: string, now: int, outcome: TxOutcome): (r: seq<TxRecord>)
    ensures |r| == (if outcome.SubmitFailed? then |txs| else |txs| + 1)
    ensures forall i :: 0 <= i < |txs| ==> r[i].hash == txs[i].hash && r[i].txType == txs[i].txType && r[i].to == txs[i].to
    ensures !outcome.SubmitFailed? ==> r[|txs|].hash == outcome.hash && r[|txs|].txType == "send" && r[|txs|].amount == amount
  {
    match outcome
    case SubmitFailed(_) => MarkLastFailed(txs)
    case ReceiptOk(h) => MarkConfirmed(txs + [NewRecord(h, p, amount, now)], h)
    case ReceiptFailed(h, _) => MarkLastFailed(txs + [NewRecord(h, p, amount, now)])
  }

  predicate FreshHash(txs: seq<TxRecord>, hash: string) {
    forall i :: 0 <= i < |txs| ==> txs[i].hash != hash
  }

  /** A successful receipt for a new hash appends one confirmed send record and changes nothing else. */
  lemma ReceiptOkAppendsConfirmed(txs: seq<TxRecord>, p: TxParams, amount: string, now: int, h: string)
    requires FreshHash(txs, h)
    ensures LogAfterConfirm(txs, p, amount, now, ReceiptOk(h)) == txs + [NewRecord(h, p, amount, now).(status := Confirmed)]
  {
    var s := txs + [NewRecord(h, p, amount, now)];
    assert s[|txs|].hash == h;
    assert forall i :: 0 <= i < |txs| ==> s[i] == txs[i];
    assert FindIndex(s, h) == |txs|;
  }

  /** A failed receipt appends one send record, already failed, and changes nothing else. */
  lemma ReceiptFailedAppendsFailed(txs: seq<TxRecord>, p: TxParams, amount: string, now: int, h: string, e: Error)
    ensures LogAfterConfirm(txs, p, amount, now, ReceiptFailed(h, e)) == txs + [NewRecord(h, p, amount, now).(status := Failed)]
  {
  }

  /** `b` is `a`, or `a` was pending and `b` is `a` with a terminal status. */
  predicate Advanced(a: TxRecord, b: TxRecord) {
    a == b || (a.status == Pending && (b == a.(status := Confirmed) || b == a.(status := Failed)))
  }

  /**
   * Status only moves forward: with a hash the log does not hold yet, every
   * earlier record stays or goes from pending to a terminal status, and a
   * record added by this call ends confirmed or failed, never pending.
   */
  lemma ConfirmOnlyAdvances(txs: seq<TxRecord>, p: TxParams, amount: string, now: int, outcome: TxOutcome)
    requires outcome.ReceiptOk? ==> FreshHash(txs, outcome.hash)
    ensures var r := LogAfterConfirm(txs, p, amount, now, outcome);
      && |r| == (if outcome.SubmitFailed? then |txs| else |txs| + 1)
      && (forall i :: 0 <= i < |txs| ==> Advanced(txs[i], r[i]))
      && (!outcome.SubmitFailed? ==>
            r[|txs|].hash == outcome.hash && r[|txs|].txType == "send" &&
            r[|txs|].status == (if outcome.ReceiptOk? then Confirmed else Failed))
  {
    match outcome
    case SubmitFailed(_) =>
    case ReceiptOk(h) => ReceiptOkAppendsConfirmed(txs, p, amount, now, h);
    case ReceiptFailed(h, e) => ReceiptFailedAppendsFailed(txs, p, amount, now, h, e);
  }

  /**
   * A submission that fails before any record is pushed still marks the last
   * existing record failed when that record is pending, although it belongs
   * to an earlier transaction.
   */
  lemma SubmitFailureMarksEarlierRecord(txs: seq<TxRecord>, p: TxParams, amount: string, now: int, e: Error)
    requires |txs| > 0 && txs[|txs| - 1].status == Pending
    ensures LogAfterConfirm(txs, p, amount, now, SubmitFailed(e)) == txs[|txs| - 1 := txs[|txs| - 1].(status := Failed)]
  {
  }

  /**
   * The receipt looks the hash up by `findIndex`: if an older record already
   * has that hash, the older one is confirmed and the new record stays pending.
   */
  lemma DuplicateHashConfirmsOlderRecord(txs: seq<TxRecord>, p: TxParams, amount: string, now: int, k: nat)
    requires k < |txs| && FindIndex(txs, txs[k].hash) == k
    ensures var r := LogAfterConfirm(txs, p, amount, now, ReceiptOk(txs[k].hash));
      r[k].status == Confirmed && r[|txs|].status == Pending
  {
    var h := txs[k].hash;
    var s := txs + [NewRecord(h, p, amount, now)];
    assert s[k] == txs[k];
    assert FindIndex(s, h) == k;
  }
}
