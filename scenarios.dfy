/**
 * Call sequences on one controller and what they are proved to lead to:
 * each method below is a client of `Wallet.TryFiWallet` whose `ensures`
 * states the end state of the sequence.
 */
module Scenarios {
  import opened Wrappers
  import opened JsValues
  import opened Configuration
  import opened TxLog
  import opened Wallet

  /**
   * personal_sign and eth_sign share one slot: the second request overwrites
   * the first, so rejecting settles only the second promise and the first
   * caller's promise is left pending.
   */
  method SharedSignSlot(w: TryFiWallet, m1: JsValue, m2: JsValue, address: JsValue) returns (first: nat, second: nat)
    requires w.Valid() && w.wallet.Some?
    modifies w
    ensures first < second < |w.promises|
    ensures w.promises[first] == Unsettled
    ensures w.promises[second] == Rejected(SignRejected)
    ensures w.pendingSign.None?
  {
    var r1 := w.HandleSign(m1);
    var r2 := w.HandleEthSign(m2, address);
    w.RejectSign();
    first, second := r1.promise, r2.promise;
  }

  /**
   * Ending the session clears `isActive`, so connecting again creates a new
   * wallet, stores it, and installs a fresh provider.
   */
  method EndSessionThenReconnect(w: TryFiWallet, key: string) returns (reply: Reply)
    requires w.Valid()
    modifies w, w.page
    ensures reply == AccountList([w.rt.addressOf(key)])
    ensures w.page.ethereum == TryFiProvider(w)
    ensures w.transactions == []
    ensures w.page.storage == (old(w.page.storage) - {StorageKey})[StorageKey := WalletData(key, Some([]))]
  {
    w.ConfirmEndSession();
    reply := w.Request("eth_requestAccounts", [], Some(key));
  }

  /**
   * `destroy` leaves `isActive` set, so a later activation on the same
   * instance does not reinstall the provider: `window.ethereum` stays the
   * page's original one.
   */
  method ActivateAfterDestroy(w: TryFiWallet)
    requires w.Valid() && w.isActive
    modifies w, w.page
    ensures w.page.ethereum == w.originalEthereum
    ensures w.page.tryfi == null
  {
    w.Destroy();
    w.ActivateProvider();
  }

  /** A confirmed send into an empty log leaves one confirmed record, and storage holds it. */
  method ConfirmedSendIsStored(w: TryFiWallet, tx: JsValue, hash: string, now: int)
    requires w.Valid() && w.wallet.Some? && w.transactions == []
    requires ReadTxParams(tx, w.rt.formatEther).Ok?
    modifies w, w.page
    ensures w.Valid() && w.wallet == old(w.wallet)
    ensures |w.transactions| == 1 && w.transactions[0].hash == hash && w.transactions[0].status == Confirmed
    ensures StorageKey in w.page.storage && w.page.storage[StorageKey] == Snapshot(w.wallet.value, w.transactions)
  {
    var reply := w.HandleSendTransaction(tx);
    var p := ReadTxParams(tx, w.rt.formatEther).value;
    var sent := w.ConfirmTx(ReceiptOk(hash), now);
    ReceiptOkAppendsConfirmed([], p, w.rt.formatEther(Or(p.value, Str("0"))).value, now, hash);
  }

  /**
   * A confirmed send is saved: a new controller constructed on the same page
   * (a reload) loads the same account and the same one-record log.
   */
  method SendThenReload(w: TryFiWallet, config: Config, tx: JsValue, hash: string, now: int) returns (w2: TryFiWallet)
    requires w.Valid() && w.wallet.Some? && w.transactions == []
    requires ReadTxParams(tx, w.rt.formatEther).Ok?
    requires WalletConfig(config).Ok?
    modifies w, w.page
    ensures |w.transactions| == 1 && w.transactions[0].hash == hash && w.transactions[0].status == Confirmed
    ensures w2.wallet == w.wallet && w2.transactions == w.transactions
    ensures w2.isActive
  {
    ConfirmedSendIsStored(w, tx, hash, now);
    SaveLoadRoundTrip(w.wallet.value, w.transactions, w.rt);
    w2 := new TryFiWallet(w.page, config, w.rt);
  }

  /**
   * After a receipt the slot stays filled (a second confirm would send again)
   * until the clean-up timer fires.
   */
  method SlotClearedOnlyByTimer(w: TryFiWallet, tx: JsValue, hash: string, now: int)
    requires w.Valid() && w.wallet.Some? && ReadTxParams(tx, w.rt.formatEther).Ok?
    modifies w, w.page
    ensures w.pendingTx.None?
  {
    var reply := w.HandleSendTransaction(tx);
    var sent := w.ConfirmTx(ReceiptOk(hash), now);
    assert w.pendingTx.Some?;
    w.FireTimer(|w.timers| - 1);
  }

  /**
   * A failed signature rejects the promise but keeps the slot, so a retry can
   * sign again, yet the page's promise stays rejected.
   */
  method RetryAfterSignFailure(w: TryFiWallet, m: JsValue, e: Error, sig: string) returns (id: nat, retried: Option<JsValue>)
    requires w.Valid() && w.wallet.Some?
    modifies w
    ensures id < |w.promises| && w.promises[id] == Rejected(e)
    ensures retried == Some(m)
    ensures |w.timers| > 0 && w.timers[|w.timers| - 1] == ClearSignAfterSuccess
  {
    var reply := w.HandleSign(m);
    id := reply.promise;
    var first := w.ConfirmSign(SignFailed(e));
    retried := w.ConfirmSign(Signed(sig));
  }

  /** A rejected transaction clears the slot: a confirm afterwards sends nothing. */
  method ConfirmAfterReject(w: TryFiWallet, tx: JsValue, outcome: TxOutcome, now: int) returns (sent: Option<SentTx>)
    requires w.Valid() && w.wallet.Some? && ReadTxParams(tx, w.rt.formatEther).Ok?
    modifies w, w.page
    ensures sent.None?
    ensures w.transactions == old(w.transactions)
  {
    var reply := w.HandleSendTransaction(tx);
    w.RejectTx();
    sent := w.ConfirmTx(outcome, now);
  }
}
