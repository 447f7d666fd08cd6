/**
 * The wallet controller (`class TryFiWallet`): the account, the activation
 * flag, the transaction log, the three one-shot confirmation slots and the
 * promises handed back to the page, plus the page globals it writes
 * (`window.ethereum`, `localStorage`, `window.tryfi`, `window.TryFi`).
 * Presentation is reduced to whether the modal is open.
 */
module Wallet {
  import opened Wrappers
  import opened JsValues
  import opened Configuration
  import opened Dispatch
  import opened TxLog

  /** The `localStorage` key the wallet is kept under. */
  const StorageKey: string := "tryfi-wallet"

  const NoWallet: Error := Error("No wallet")
  const TxRejected: Error := Error("User rejected transaction")
  const SignRejected: Error := Error("User rejected signing")
  const TypedDataRejected: Error := Error("User rejected typed data signing")

  /** The disposable key pair: the private key and the address derived from it. */
  datatype Account = Account(privateKey: string, address: string)

  /** What `saveWallet` stores under `StorageKey` (its JSON encoding is abstracted away). */
  datatype WalletData = WalletData(privateKey: string, transactions: Option<seq<TxRecord>>)

  /**
   * Library code the controller calls into: ethers' key-to-address derivation,
   * its wei-to-ether formatting (which throws on a value it cannot read as
   * wei), and `JSON.parse`.
   */
  datatype Runtime = Runtime(
    addressOf: string -> string,
    formatEther: JsValue -> Result<string, Error>,
    parseJson: JsValue -> Option<JsValue>)

  /** The record `saveWallet` writes. */
  function Snapshot(a: Account, txs: seq<TxRecord>): (d: WalletData)
    ensures d.privateKey == a.privateKey && d.transactions == Some(txs)
  {
    WalletData(a.privateKey, Some(txs))
  }

  /** What `loadWallet` makes of a stored record: the key's account and `transactions || []`. */
  function Restore(d: WalletData, rt: Runtime): (r: (Account, seq<TxRecord>))
    ensures r.0.privateKey == d.privateKey && r.0.address == rt.addressOf(d.privateKey)
    ensures d.transactions.Some? ==> r.1 == d.transactions.value
    ensures d.transactions.None? ==> r.1 == []
  {
    (Account(d.privateKey, rt.addressOf(d.privateKey)), if d.transactions.Some? then d.transactions.value else [])
  }

  /** Loading what was saved gives back the same account and the same log. */
  lemma SaveLoadRoundTrip(a: Account, txs: seq<TxRecord>, rt: Runtime)
    requires a.address == rt.addressOf(a.privateKey)
    ensures Restore(Snapshot(a, txs), rt) == (a, txs)
  {
  }

  /** What occupies `window.ethereum`. */
  datatype Ethereum = Absent | PageProvider(id: nat) | TryFiProvider(owner: TryFiWallet)

  /** What `window.TryFi` holds: the module object, the facade `init` installs, or null after `destroy`. */
  datatype GlobalApi = ModuleApi | InstanceApi | NoApi

  /** The promise a confirmation request returned to the page. */
  datatype Settlement = Unsettled | Resolved(value: string) | Rejected(error: Error)

  /** A promise settles once: later `resolve`/`reject` calls do nothing. */
  function SettleAt(ps: seq<Settlement>, id: nat, s: Settlement): (r: seq<Settlement>)
    requires id < |ps|
    ensures |r| == |ps|
    ensures forall j :: 0 <= j < |ps| && j != id ==> r[j] == ps[j]
    ensures ps[id].Unsettled? ==> r[id] == s
    ensures !ps[id].Unsettled? ==> r == ps
  {
    if ps[id].Unsettled? then ps[id := s] else ps
  }

  /** Settling an already settled promise again changes nothing. */
  lemma SettleOnce(ps: seq<Settlement>, id: nat, a: Settlement, b: Settlement)
    requires id < |ps| && a != Unsettled
    ensures SettleAt(SettleAt(ps, id, a), id, b) == SettleAt(ps, id, a)
  {
  }

  datatype SignKind = Personal | RawEthSign

  /** `_pendingTx`, `_pendingSign`, `_pendingSignTypedData`: the payload and the promise to settle. */
  datatype PendingTx = PendingTx(promise: nat, txParams: TxParams)
  datatype PendingSign = PendingSign(promise: nat, message: JsValue, kind: SignKind)
  datatype PendingTypedData = PendingTypedData(promise: nat, data: JsValue, address: JsValue)

  /** What the signer did with a message or typed data. */
  datatype SignOutcome = Signed(signature: string) | SignFailed(error: Error)

  /** The arguments `confirmSignTypedData` passes to `signTypedData`. */
  datatype TypedDataRequest = TypedDataRequest(domain: JsValue, types: JsValue, message: JsValue)

  /** The deferred steps the controller schedules with `setTimeout`. */
  datatype Timer =
    | ClearTxAfterSuccess        // 2 s after a receipt: clear `_pendingTx`, start auto-hide
    | ClearTxAfterFailure        // 4 s after a failure: clear `_pendingTx`
    | ClearSignAfterSuccess      // 2 s after signing: clear `_pendingSign`, start auto-hide
    | ClearTypedDataAfterSuccess // 2 s after signing: clear `_pendingSignTypedData`, start auto-hide
    | HideAfterReject            // 1 s after a rejection in hidden position: hide
    | AutoHide                   // `_autoHideTimeout`, 3 s: hide

  /** `clearTimeout` for every scheduled occurrence of `t`. */
  function Cancel(ts: seq<Timer>, t: Timer): (r: seq<Timer>)
    ensures t !in r
    ensures forall x :: x in r <==> x in ts && x != t
    ensures forall x :: x != t ==> multiset(r)[x] == multiset(ts)[x]
    ensures |r| <= |ts|
  {
    if ts == [] then []
    else
      assert ts == [ts[0]] + ts[1..];
      (if ts[0] == t then [] else [ts[0]]) + Cancel(ts[1..], t)
  }

  /** The clean-up steps after a success, which end by restarting auto-hide. */
  predicate RestartsAutoHide(t: Timer) {
    t.ClearTxAfterSuccess? || t.ClearSignAfterSuccess? || t.ClearTypedDataAfterSuccess?
  }

  /** What `request` gives back to the page. */
  datatype Reply =
    | AccountList(addresses: seq<string>)          // answered directly
    | Thrown(error: Error)                         // the returned promise rejects at once
    | Awaiting(promise: nat)                       // settled later through a confirmation slot
    | Forwarded(methodName: string, params: seq<JsValue>)  // `provider.send(method, params)`, its result passed through

  function SignVerdict(o: SignOutcome): Settlement {
    match o
    case Signed(sig) => Resolved(sig)
    case SignFailed(e) => Rejected(e)
  }

  function TxVerdict(o: TxOutcome): Settlement {
    match o
    case ReceiptOk(h) => Resolved(h)
    case ReceiptFailed(_, e) => Rejected(e)
    case SubmitFailed(e) => Rejected(e)
  }

  /**
   * The outcome `confirmTx` acts on.  Without an account `this.wallet.sendTransaction`
   * throws before anything is sent.  After a submission, `formatEther` throwing
   * while the record is built skips the push, as a failed submission does.
   */
  function EffectiveOutcome(wallet: Option<Account>, amount: Result<string, Error>, o: TxOutcome): (r: TxOutcome)
    ensures wallet.None? ==> r == SubmitFailed(TypeError)
    ensures !r.SubmitFailed? ==> r == o && wallet.Some? && amount.Ok?
    ensures wallet.Some? && o.SubmitFailed? ==> r == o
    ensures wallet.Some? && !o.SubmitFailed? && amount.Err? ==> r == SubmitFailed(amount.error)
  {
    if wallet.None? then SubmitFailed(TypeError)
    else if !o.SubmitFailed? && amount.Err? then SubmitFailed(amount.error)
    else o
  }

  /** The `amount` field of the pushed record (only read when formatting succeeded). */
  function AmountText(amount: Result<string, Error>): (s: string)
    ensures amount.Ok? ==> s == amount.value
  {
    if amount.Ok? then amount.value else ""
  }

  /** The typed-data screen reads `data.domain.name` and `Object.entries(data.message)`. */
  function TypedDataRenders(data: JsValue): (b: bool)
    ensures b ==> data.Obj? && "domain" in data.props && "message" in data.props
    ensures b <==> !Nullish(Prop(data, "domain")) && !Nullish(Prop(data, "message"))
  {
    !Nullish(data) && !Nullish(Prop(data, "domain")) && !Nullish(Prop(data, "message"))
  }

  /** The browser window, as far as the widget reads and writes it. */
  class Page {
    var ethereum: Ethereum
    var storage: map<string, WalletData>
    var tryfi: TryFiWallet?
    var api: GlobalApi

    constructor (ethereum: Ethereum, storage: map<string, WalletData>)
      ensures this.ethereum == ethereum && this.storage == storage
      ensures tryfi == null && api == ModuleApi
    {
      this.ethereum := ethereum;
      this.storage := storage;
      tryfi := null;
      api := ModuleApi;
    }
  }

  class TryFiWallet {
    const page: Page
    const config: Config
    const rt: Runtime
    const theme: Theme
    const originalEthereum: Ethereum

    var wallet: Option<Account>
    var isActive: bool
    var transactions: seq<TxRecord>
    var pendingTx: Option<PendingTx>
    var pendingSign: Option<PendingSign>
    var pendingSignTypedData: Option<PendingTypedData>
    var promises: seq<Settlement>
    var timers: seq<Timer>
    var modalOpen: bool

    /** Slots refer to promises that were handed out; the account's address is its key's. */
    ghost predicate Valid()
      reads this
    {
      && (pendingTx.Some? ==> pendingTx.value.promise < |promises|)
      && (pendingSign.Some? ==> pendingSign.value.promise < |promises|)
      && (pendingSignTypedData.Some? ==> pendingSignTypedData.value.promise < |promises|)
      && (wallet.Some? ==> wallet.value.address == rt.addressOf(wallet.value.privateKey))
      && (wallet.None? ==> transactions == [])
    }

    /** `this.config.position === 'hidden'`. */
    predicate Hidden() {
      Get(config, "position") == Str("hidden")
    }

    /** The state right after construction on `page`, where `window.ethereum` held `before`. */
    ghost predicate Initial(page: Page, config: Config, rt: Runtime, before: Ethereum)
      reads this, page`storage, page`ethereum
    {
      && this.page == page && this.config == config && this.rt == rt
      && theme == ThemeFor(Get(config, "theme"))
      && originalEthereum == before
      && pendingTx.None? && pendingSign.None? && pendingSignTypedData.None?
      && promises == [] && timers == [] && !modalOpen
      && (StorageKey in page.storage ==>
            && wallet.Some?
            && (wallet.value, transactions) == Restore(page.storage[StorageKey], rt)
            && isActive && page.ethereum == TryFiProvider(this))
      && (StorageKey !in page.storage ==>
            wallet.None? && transactions == [] && !isActive && page.ethereum == before)
    }

    /**
     * The constructor once its required-field check passed (`Create` runs the
     * check): store the merged config, remember `window.ethereum`, load the theme
     * and any saved wallet.
     */
    constructor (page: Page, config: Config, rt: Runtime)
      requires WalletConfig(config).Ok?
      modifies page`ethereum
      ensures Valid()
      ensures Initial(page, WalletConfig(config).value, rt, old(page.ethereum))
    {
      this.page := page;
      this.config := Merge(WalletDefaults, config);
      this.rt := rt;
      theme := ThemeFor(Get(Merge(WalletDefaults, config), "theme"));
      originalEthereum := page.ethereum;
      wallet := None;
      isActive := false;
      transactions := [];
      pendingTx := None;
      pendingSign := None;
      pendingSignTypedData := None;
      promises := [];
      timers := [];
      modalOpen := false;
      new;
      LoadWallet();
    }

    /** `new TryFiWallet(config)`: throws for the first falsy required field, else constructs. */
    static method Create(page: Page, config: Config, rt: Runtime) returns (r: Result<TryFiWallet, Error>)
      modifies page`ethereum
      ensures WalletConfig(config).Err? ==> r == Err(WalletConfig(config).error) && page.ethereum == old(page.ethereum)
      ensures WalletConfig(config).Ok? ==>
        && r.Ok? && fresh(r.value) && r.value.Valid()
        && r.value.Initial(page, WalletConfig(config).value, rt, old(page.ethereum))
    {
      var missing := FindMissingField(config, WalletRequired);
      if missing.Some? {
        return Err(MissingField(missing.value));
      }
      var w := new TryFiWallet(page, config, rt);
      return Ok(w);
    }

    /** `loadWallet`: a stored wallet becomes the account and log, and the provider is activated. */
    method LoadWallet()
      requires Valid()
      modifies this`wallet, this`transactions, this`isActive, page`ethereum
      ensures Valid()
      ensures StorageKey !in page.storage ==>
        wallet == old(wallet) && transactions == old(transactions) && isActive == old(isActive) && page.ethereum == old(page.ethereum)
      ensures StorageKey in page.storage ==>
        && wallet.Some? && (wallet.value, transactions) == Restore(page.storage[StorageKey], rt)
        && isActive && page.ethereum == (if old(isActive) then old(page.ethereum) else TryFiProvider(this))
    {
      if StorageKey in page.storage {
        var (account, txs) := Restore(page.storage[StorageKey], rt);
        wallet := Some(account);
        transactions := txs;
        ActivateProvider();
      }
    }

    /** `createWallet`: a fresh key (None when key generation threw), an empty log, saved and activated. */
    method CreateWallet(key: Option<string>)
      requires Valid()
      modifies this`wallet, this`transactions, this`isActive, page`storage, page`ethereum
      ensures Valid()
      ensures key.None? ==>
        && wallet == old(wallet) && transactions == old(transactions) && isActive == old(isActive)
        && page.storage == old(page.storage) && page.ethereum == old(page.ethereum)
      ensures key.Some? ==>
        && wallet == Some(Account(key.value, rt.addressOf(key.value))) && transactions == [] && isActive
        && page.storage == old(page.storage)[StorageKey := Snapshot(wallet.value, [])]
        && page.ethereum == (if old(isActive) then old(page.ethereum) else TryFiProvider(this))
    {
      if key.Some? {
        wallet := Some(Account(key.value, rt.addressOf(key.value)));
        transactions := [];
        SaveWallet();
        ActivateProvider();
      }
    }

    /** `saveWallet`: overwrite the stored record with the account and the whole log. */
    method SaveWallet()
      modifies page`storage
      ensures wallet.None? ==> page.storage == old(page.storage)
      ensures wallet.Some? ==> page.storage == old(page.storage)[StorageKey := Snapshot(wallet.value, transactions)]
    {
      if wallet.None? {
        return;
      }
      page.storage := page.storage[StorageKey := Snapshot(wallet.value, transactions)];
    }

    /** `activateProvider`: install a fresh provider once; while active, do nothing. */
    method ActivateProvider()
      modifies this`isActive, page`ethereum
      ensures isActive
      ensures old(isActive) ==> page.ethereum == old(page.ethereum)
      ensures !old(isActive) ==> page.ethereum == TryFiProvider(this)
    {
      if isActive {
        return;
      }
      isActive := true;
      page.ethereum := TryFiProvider(this);
    }

    method ShowWidget()
      modifies this`modalOpen
      ensures modalOpen
    {
      modalOpen := true;
    }

    method HideWidget()
      modifies this`modalOpen
      ensures !modalOpen
    {
      modalOpen := false;
    }

    /** `toggleWidget`: hide an open modal, show a closed one. */
    method ToggleWidget()
      modifies this`modalOpen
      ensures modalOpen == !old(modalOpen)
    {
      if modalOpen {
        HideWidget();
      } else {
        ShowWidget();
      }
    }

    /** `new Promise(...)`: a promise nobody has settled yet. */
    method NewPromise() returns (id: nat)
      modifies this`promises
      ensures id == |old(promises)| && promises == old(promises) + [Unsettled]
    {
      id := |promises|;
      promises := promises + [Unsettled];
    }

    method Settle(id: nat, s: Settlement)
      requires id < |promises|
      modifies this`promises
      ensures promises == SettleAt(old(promises), id, s)
    {
      if promises[id].Unsettled? {
        promises := promises[id := s];
      }
    }

    /** `startAutoHideAfterSuccess`: in hidden position, restart the one auto-hide timer. */
    method StartAutoHide()
      modifies this`timers
      ensures timers == if Hidden() then Cancel(old(timers), AutoHide) + [AutoHide] else old(timers)
    {
      if !Hidden() {
        return;
      }
      timers := Cancel(timers, AutoHide) + [AutoHide];
    }

    /** `request({ method, params })` of the injected provider. `newKey` is what key generation yields if a wallet must be created. */
    method Request(name: string, params: seq<JsValue>, newKey: Option<string>) returns (reply: Reply)
      requires Valid()
      modifies this`wallet, this`transactions, this`isActive, this`modalOpen, this`promises
      modifies this`pendingTx, this`pendingSign, this`pendingSignTypedData, page`storage, page`ethereum
      ensures Valid()
      ensures Hidden() && RequiresUI(name) ==> modalOpen
      ensures ParseMethod(name) in ConfirmedMethods && (old(wallet).Some? || ParseMethod(name) == EthSign) ==> modalOpen
      ensures ParseMethod(name) !in ConfirmedMethods ==>
        && promises == old(promises) && modalOpen == old(modalOpen)
        && pendingTx == old(pendingTx) && pendingSign == old(pendingSign) && pendingSignTypedData == old(pendingSignTypedData)
      ensures transactions == old(transactions) || (old(wallet).None? && transactions == [])
      ensures ParseMethod(name) == EthAccounts ==>
        && reply == AccountList(if old(wallet).None? then [] else [old(wallet).value.address])
        && unchanged(this) && unchanged(page)
      ensures ParseMethod(name).Other? ==>
        reply == Forwarded(name, params) && unchanged(this) && unchanged(page)
      ensures ParseMethod(name) == EthRequestAccounts ==>
        && (reply.AccountList? ==> wallet.Some? && reply.addresses == [wallet.value.address])
        && (old(wallet).Some? ==> reply == AccountList([old(wallet).value.address]) && unchanged(this) && unchanged(page))
        && (old(wallet).None? && newKey.Some? ==>
              && wallet == Some(Account(newKey.value, rt.addressOf(newKey.value))) && reply.AccountList?
              && transactions == [] && isActive
              && page.storage == old(page.storage)[StorageKey := Snapshot(wallet.value, [])]
              && page.ethereum == (if old(isActive) then old(page.ethereum) else TryFiProvider(this)))
        && (old(wallet).None? && newKey.None? ==> reply == Thrown(TypeError) && unchanged(this) && unchanged(page))
      ensures ParseMethod(name) in ConfirmedMethods ==>
        wallet == old(wallet) && isActive == old(isActive) && unchanged(page)
      ensures ParseMethod(name) in {EthSendTransaction, PersonalSign, EthSignTypedDataV4} && old(wallet).None? ==>
        && reply == Thrown(NoWallet) && promises == old(promises)
        && pendingTx == old(pendingTx) && pendingSign == old(pendingSign) && pendingSignTypedData == old(pendingSignTypedData)
        && modalOpen == (old(modalOpen) || Hidden())
      ensures ParseMethod(name) == EthSendTransaction ==>
        pendingSign == old(pendingSign) && pendingSignTypedData == old(pendingSignTypedData)
      ensures ParseMethod(name) == EthSendTransaction && old(wallet).Some? ==>
        match ReadTxParams(At(params, 0), rt.formatEther)
        case Err(e) => reply == Thrown(e) && pendingTx == old(pendingTx) && promises == old(promises)
        case Ok(p) =>
          && reply == Awaiting(|old(promises)|) && promises == old(promises) + [Unsettled]
          && pendingTx == Some(PendingTx(|old(promises)|, p))
      ensures ParseMethod(name) in {PersonalSign, EthSign} ==>
        pendingTx == old(pendingTx) && pendingSignTypedData == old(pendingSignTypedData)
      ensures ParseMethod(name) == PersonalSign && old(wallet).Some? ==>
        && reply == Awaiting(|old(promises)|) && promises == old(promises) + [Unsettled]
        && pendingSign == Some(PendingSign(|old(promises)|, At(params, 0), Personal))
      ensures ParseMethod(name) == EthSign ==>
        && reply == Awaiting(|old(promises)|)
        && promises == old(promises) + [if old(wallet).None? then Rejected(TypeError) else Unsettled]
        && pendingSign == Some(PendingSign(|old(promises)|, At(params, 1), RawEthSign))
      ensures ParseMethod(name) == EthSignTypedDataV4 ==>
        pendingTx == old(pendingTx) && pendingSign == old(pendingSign)
      ensures ParseMethod(name) == EthSignTypedDataV4 && old(wallet).Some? ==>
        match rt.parseJson(At(params, 1))
        case None => reply == Thrown(SyntaxError) && pendingSignTypedData == old(pendingSignTypedData) && promises == old(promises)
        case Some(data) =>
          if TypedDataRenders(data) then
            && reply == Awaiting(|old(promises)|) && promises == old(promises) + [Unsettled]
            && pendingSignTypedData == Some(PendingTypedData(|old(promises)|, data, At(params, 0)))
          else reply == Thrown(TypeError) && pendingSignTypedData == old(pendingSignTypedData) && promises == old(promises)
    {
      var m := ParseMethod(name);
      if m in ConfirmedMethods {
        reply := Confirmation(m, params);
      } else {
        reply := Answer(m, params, newKey);
      }
    }

    /** The cases of `request` that are answered without a confirmation screen. */
    method Answer(m: Method, params: seq<JsValue>, newKey: Option<string>) returns (reply: Reply)
      requires Valid() && m !in ConfirmedMethods
      modifies this`wallet, this`transactions, this`isActive, page`storage, page`ethereum
      ensures Valid()
      ensures m == EthAccounts ==>
        && reply == AccountList(if old(wallet).None? then [] else [old(wallet).value.address])
        && unchanged(this) && unchanged(page)
      ensures m.Other? ==> reply == Forwarded(m.name, params) && unchanged(this) && unchanged(page)
      ensures m == EthRequestAccounts ==>
        && (reply.AccountList? ==> wallet.Some? && reply.addresses == [wallet.value.address])
        && (old(wallet).Some? ==> reply == AccountList([old(wallet).value.address]) && unchanged(this) && unchanged(page))
        && (old(wallet).None? && newKey.Some? ==>
              && wallet == Some(Account(newKey.value, rt.addressOf(newKey.value))) && reply.AccountList?
              && transactions == [] && isActive
              && page.storage == old(page.storage)[StorageKey := Snapshot(wallet.value, [])]
              && page.ethereum == (if old(isActive) then old(page.ethereum) else TryFiProvider(this)))
        && (old(wallet).None? && newKey.None? ==> reply == Thrown(TypeError) && unchanged(this) && unchanged(page))
    {
      match m
      case EthRequestAccounts =>
        reply := ConnectAccounts(newKey);
      case EthAccounts =>
        reply := AccountList(if wallet.None? then [] else [wallet.value.address]);
      case Other(name) =>
        reply := Forwarded(name, params);
    }

    /**
     * The cases of `request` that open a confirmation screen (exactly those
     * `requiresUI` lists): in hidden position the widget is shown first, then
     * the handler runs with the parameter order of each.
     */
    method Confirmation(m: Method, params: seq<JsValue>) returns (reply: Reply)
      requires Valid() && m in ConfirmedMethods
      modifies this`modalOpen, this`promises, this`pendingTx, this`pendingSign, this`pendingSignTypedData
      ensures Valid()
      ensures old(modalOpen) || Hidden() ==> modalOpen
      ensures wallet.Some? || m == EthSign ==> modalOpen
      ensures m in {EthSendTransaction, PersonalSign, EthSignTypedDataV4} && wallet.None? ==>
        && reply == Thrown(NoWallet) && promises == old(promises) && modalOpen == (old(modalOpen) || Hidden())
        && pendingTx == old(pendingTx) && pendingSign == old(pendingSign) && pendingSignTypedData == old(pendingSignTypedData)
      ensures m == EthSendTransaction ==>
        pendingSign == old(pendingSign) && pendingSignTypedData == old(pendingSignTypedData)
      ensures m == EthSendTransaction && wallet.Some? ==>
        match ReadTxParams(At(params, 0), rt.formatEther)
        case Err(e) => reply == Thrown(e) && pendingTx == old(pendingTx) && promises == old(promises)
        case Ok(p) =>
          && reply == Awaiting(|old(promises)|) && promises == old(promises) + [Unsettled]
          && pendingTx == Some(PendingTx(|old(promises)|, p))
      ensures m in {PersonalSign, EthSign} ==>
        pendingTx == old(pendingTx) && pendingSignTypedData == old(pendingSignTypedData)
      ensures m == PersonalSign && wallet.Some? ==>
        && reply == Awaiting(|old(promises)|) && promises == old(promises) + [Unsettled]
        && pendingSign == Some(PendingSign(|old(promises)|, At(params, 0), Personal))
      ensures m == EthSign ==>
        && reply == Awaiting(|old(promises)|)
        && promises == old(promises) + [if wallet.None? then Rejected(TypeError) else Unsettled]
        && pendingSign == Some(PendingSign(|old(promises)|, At(params, 1), RawEthSign))
      ensures m == EthSignTypedDataV4 ==>
        pendingTx == old(pendingTx) && pendingSign == old(pendingSign)
      ensures m == EthSignTypedDataV4 && wallet.Some? ==>
        match rt.parseJson(At(params, 1))
        case None => reply == Thrown(SyntaxError) && pendingSignTypedData == old(pendingSignTypedData) && promises == old(promises)
        case Some(data) =>
          if TypedDataRenders(data) then
            && reply == Awaiting(|old(promises)|) && promises == old(promises) + [Unsettled]
            && pendingSignTypedData == Some(PendingTypedData(|old(promises)|, data, At(params, 0)))
          else reply == Thrown(TypeError) && pendingSignTypedData == old(pendingSignTypedData) && promises == old(promises)
    {
      if Hidden() {
        ShowWidget();
      }
      match m
      case EthSendTransaction =>
        reply := HandleSendTransaction(At(params, 0));
      case PersonalSign =>
        reply := HandleSign(At(params, 0));
      case EthSignTypedDataV4 =>
        reply := HandleSignTypedData(At(params, 1), At(params, 0));
      case EthSign =>
        reply := HandleEthSign(At(params, 1), At(params, 0));
    }

    /** The `eth_requestAccounts` case: create a wallet only when there is none, then answer its address. */
    method ConnectAccounts(newKey: Option<string>) returns (reply: Reply)
      requires Valid()
      modifies this`wallet, this`transactions, this`isActive, page`storage, page`ethereum
      ensures Valid()
      ensures reply.AccountList? ==> wallet.Some? && reply.addresses == [wallet.value.address]
      ensures old(wallet).Some? ==>
        reply == AccountList([old(wallet).value.address]) && unchanged(this) && unchanged(page)
      ensures old(wallet).None? && newKey.Some? ==>
        && wallet == Some(Account(newKey.value, rt.addressOf(newKey.value))) && reply.AccountList?
        && transactions == [] && isActive
        && page.storage == old(page.storage)[StorageKey := Snapshot(wallet.value, [])]
        && page.ethereum == (if old(isActive) then old(page.ethereum) else TryFiProvider(this))
      ensures old(wallet).None? && newKey.None? ==> reply == Thrown(TypeError) && unchanged(this) && unchanged(page)
    {
      if wallet.None? {
        CreateWallet(newKey);
      }
      if wallet.None? {
        reply := Thrown(TypeError);
      } else {
        reply := AccountList([wallet.value.address]);
      }
    }

    /** `handleSendTransaction`: requires an account, opens the confirmation and fills `_pendingTx`. */
    method HandleSendTransaction(txParams: JsValue) returns (reply: Reply)
      requires Valid()
      modifies this`modalOpen, this`promises, this`pendingTx
      ensures Valid()
      ensures wallet.None? ==>
        reply == Thrown(NoWallet) && modalOpen == old(modalOpen) && promises == old(promises) && pendingTx == old(pendingTx)
      ensures wallet.Some? ==> modalOpen
      ensures wallet.Some? && ReadTxParams(txParams, rt.formatEther).Err? ==>
        reply == Thrown(ReadTxParams(txParams, rt.formatEther).error) && promises == old(promises) && pendingTx == old(pendingTx)
      ensures wallet.Some? && ReadTxParams(txParams, rt.formatEther).Ok? ==>
        && reply == Awaiting(|old(promises)|) && promises == old(promises) + [Unsettled]
        && pendingTx == Some(PendingTx(|old(promises)|, ReadTxParams(txParams, rt.formatEther).value))
    {
      if wallet.None? {
        return Thrown(NoWallet);
      }
      ShowWidget();
      var p := ReadTxParams(txParams, rt.formatEther);
      if p.Err? {
        return Thrown(p.error);
      }
      var id := NewPromise();
      pendingTx := Some(PendingTx(id, p.value));
      reply := Awaiting(id);
    }

    /** `handleSign` (personal_sign): requires an account and fills `_pendingSign`. */
    method HandleSign(message: JsValue) returns (reply: Reply)
      requires Valid()
      modifies this`modalOpen, this`promises, this`pendingSign
      ensures Valid()
      ensures wallet.None? ==>
        reply == Thrown(NoWallet) && modalOpen == old(modalOpen) && promises == old(promises) && pendingSign == old(pendingSign)
      ensures wallet.Some? ==>
        && modalOpen && reply == Awaiting(|old(promises)|) && promises == old(promises) + [Unsettled]
        && pendingSign == Some(PendingSign(|old(promises)|, message, Personal))
    {
      if wallet.None? {
        return Thrown(NoWallet);
      }
      ShowWidget();
      var id := NewPromise();
      pendingSign := Some(PendingSign(id, message, Personal));
      reply := Awaiting(id);
    }

    /**
     * `handleEthSign`: no account check.  It fills the shared `_pendingSign`
     * slot first and then renders; without an account the rendering throws,
     * which rejects the promise but leaves the slot filled.
     */
    method HandleEthSign(message: JsValue, address: JsValue) returns (reply: Reply)
      requires Valid()
      modifies this`modalOpen, this`promises, this`pendingSign
      ensures Valid()
      ensures modalOpen && reply == Awaiting(|old(promises)|)
      ensures promises == old(promises) + [if wallet.None? then Rejected(TypeError) else Unsettled]
      ensures pendingSign == Some(PendingSign(|old(promises)|, message, RawEthSign))
    {
      var id := NewPromise();
      pendingSign := Some(PendingSign(id, message, RawEthSign));
      ShowWidget();
      if wallet.None? {
        Settle(id, Rejected(TypeError));
      }
      reply := Awaiting(id);
    }

    /** `handleSignTypedData`: requires an account, parses the payload and fills `_pendingSignTypedData`. */
    method HandleSignTypedData(typedData: JsValue, address: JsValue) returns (reply: Reply)
      requires Valid()
      modifies this`modalOpen, this`promises, this`pendingSignTypedData
      ensures Valid()
      ensures wallet.None? ==>
        && reply == Thrown(NoWallet) && modalOpen == old(modalOpen) && promises == old(promises)
        && pendingSignTypedData == old(pendingSignTypedData)
      ensures wallet.Some? ==> modalOpen
      ensures wallet.Some? ==>
        match rt.parseJson(typedData)
        case None => reply == Thrown(SyntaxError) && promises == old(promises) && pendingSignTypedData == old(pendingSignTypedData)
        case Some(data) =>
          if TypedDataRenders(data) then
            && reply == Awaiting(|old(promises)|) && promises == old(promises) + [Unsettled]
            && pendingSignTypedData == Some(PendingTypedData(|old(promises)|, data, address))
          else reply == Thrown(TypeError) && promises == old(promises) && pendingSignTypedData == old(pendingSignTypedData)
    {
      if wallet.None? {
        return Thrown(NoWallet);
      }
      ShowWidget();
      var parsed := rt.parseJson(typedData);
      if parsed.None? {
        return Thrown(SyntaxError);
      }
      if !TypedDataRenders(parsed.value) {
        return Thrown(TypeError);
      }
      var id := NewPromise();
      pendingSignTypedData := Some(PendingTypedData(id, parsed.value, address));
      reply := Awaiting(id);
    }

    /**
     * `confirmTx` run to its end with the network's `outcome`: returns what was
     * handed to the signer.  The slot itself is only cleared by a later timer.
     */
    method ConfirmTx(outcome: TxOutcome, now: int) returns (sent: Option<SentTx>)
      requires Valid()
      modifies this`transactions, this`promises, this`timers, page`storage
      ensures Valid()
      ensures old(pendingTx).None? ==>
        && sent.None? && transactions == old(transactions) && promises == old(promises)
        && timers == old(timers) && page.storage == old(page.storage)
      ensures old(pendingTx).Some? ==>
        var p := old(pendingTx).value;
        var amount := rt.formatEther(Or(p.txParams.value, Str("0")));
        var o := EffectiveOutcome(wallet, amount, outcome);
        && sent == (if wallet.None? then None else Some(Outgoing(p.txParams)))
        && transactions == LogAfterConfirm(old(transactions), p.txParams, AmountText(amount), now, o)
        && promises == SettleAt(old(promises), p.promise, TxVerdict(o))
        && timers == old(timers) + [if o.ReceiptOk? then ClearTxAfterSuccess else ClearTxAfterFailure]
      ensures transactions == old(transactions) ==> page.storage == old(page.storage)
      ensures transactions != old(transactions) ==>
        wallet.Some? && page.storage == old(page.storage)[StorageKey := Snapshot(wallet.value, transactions)]
    {
      if pendingTx.None? {
        return None;
      }
      var p := pendingTx.value;
      var amount := rt.formatEther(Or(p.txParams.value, Str("0")));
      var o := EffectiveOutcome(wallet, amount, outcome);
      sent := if wallet.None? then None else Some(Outgoing(p.txParams));
      match o
      case ReceiptOk(h) =>
        SucceedTx(p.promise, NewRecord(h, p.txParams, AmountText(amount), now));
      case ReceiptFailed(h, e) =>
        FailSubmittedTx(p.promise, NewRecord(h, p.txParams, AmountText(amount), now), e);
      case SubmitFailed(e) =>
        FailTx(p.promise, e);
    }

    /** The success path of `confirmTx` once the receipt arrived for the record `r`. */
    method SucceedTx(id: nat, r: TxRecord)
      requires Valid() && wallet.Some? && id < |promises|
      modifies this`transactions, this`promises, this`timers, page`storage
      ensures Valid()
      ensures transactions == MarkConfirmed(old(transactions) + [r], r.hash)
      ensures page.storage == old(page.storage)[StorageKey := Snapshot(wallet.value, transactions)]
      ensures promises == SettleAt(old(promises), id, Resolved(r.hash))
      ensures timers == old(timers) + [ClearTxAfterSuccess]
    {
      AppendRecord(r);
      ConfirmRecord(r.hash);
      Settle(id, Resolved(r.hash));
      timers := timers + [ClearTxAfterSuccess];
    }

    /** The path of `confirmTx` where the record `r` was pushed and then `tx.wait()` threw. */
    method FailSubmittedTx(id: nat, r: TxRecord, e: Error)
      requires Valid() && wallet.Some? && id < |promises|
      modifies this`transactions, this`promises, this`timers, page`storage
      ensures Valid()
      ensures transactions == MarkLastFailed(old(transactions) + [r])
      ensures page.storage == old(page.storage)[StorageKey := Snapshot(wallet.value, transactions)]
      ensures promises == SettleAt(old(promises), id, Rejected(e))
      ensures timers == old(timers) + [ClearTxAfterFailure]
    {
      AppendRecord(r);
      FailTx(id, e);
    }

    /** `this.transactions.push(txRecord); this.saveWallet()`. */
    method AppendRecord(r: TxRecord)
      requires Valid() && wallet.Some?
      modifies this`transactions, page`storage
      ensures Valid()
      ensures transactions == old(transactions) + [r]
      ensures page.storage == old(page.storage)[StorageKey := Snapshot(wallet.value, transactions)]
    {
      transactions := transactions + [r];
      SaveWallet();
    }

    /** After the receipt: the first record with the hash is marked confirmed and the log saved. */
    method ConfirmRecord(h: string)
      requires Valid() && wallet.Some?
      modifies this`transactions, page`storage
      ensures Valid()
      ensures transactions == MarkConfirmed(old(transactions), h)
      ensures FindIndex(old(transactions), h) == -1 ==> page.storage == old(page.storage)
      ensures FindIndex(old(transactions), h) != -1 ==>
        page.storage == old(page.storage)[StorageKey := Snapshot(wallet.value, transactions)]
    {
      var k := FindIndex(transactions, h);
      if k != -1 {
        transactions := transactions[k := transactions[k].(status := Confirmed)];
        SaveWallet();
      }
    }

    /** The `catch` of `confirmTx`: mark the last record failed if it is pending, reject, schedule the clean-up. */
    method FailTx(id: nat, e: Error)
      requires Valid() && id < |promises|
      modifies this`transactions, this`promises, this`timers, page`storage
      ensures Valid()
      ensures transactions == MarkLastFailed(old(transactions))
      ensures promises == SettleAt(old(promises), id, Rejected(e))
      ensures timers == old(timers) + [ClearTxAfterFailure]
      ensures transactions == old(transactions) ==> page.storage == old(page.storage)
      ensures transactions != old(transactions) ==>
        wallet.Some? && page.storage == old(page.storage)[StorageKey := Snapshot(wallet.value, transactions)]
    {
      if |transactions| > 0 {
        var last := transactions[|transactions| - 1];
        if last.status == Pending {
          transactions := transactions[|transactions| - 1 := last.(status := Failed)];
          SaveWallet();
        }
      }
      Settle(id, Rejected(e));
      timers := timers + [ClearTxAfterFailure];
    }

    /** `rejectTx`: reject with "User rejected transaction" and clear the slot; the log is untouched. */
    method RejectTx()
      requires Valid()
      modifies this`pendingTx, this`promises, this`timers
      ensures Valid()
      ensures transactions == old(transactions)
      ensures old(pendingTx).None? ==>
        pendingTx == old(pendingTx) && promises == old(promises) && timers == old(timers)
      ensures old(pendingTx).Some? ==>
        && pendingTx.None?
        && promises == SettleAt(old(promises), old(pendingTx).value.promise, Rejected(TxRejected))
        && timers == old(timers) + (if Hidden() then [HideAfterReject] else [])
    {
      if pendingTx.None? {
        return;
      }
      Settle(pendingTx.value.promise, Rejected(TxRejected));
      pendingTx := None;
      if Hidden() {
        timers := timers + [HideAfterReject];
      }
    }

    /**
     * `confirmSign` with the signer's `outcome`; returns the message handed to
     * the signer.  A failure rejects the promise but keeps the slot.
     */
    method ConfirmSign(outcome: SignOutcome) returns (signing: Option<JsValue>)
      requires Valid()
      modifies this`promises, this`timers
      ensures Valid()
      ensures old(pendingSign).None? ==> signing.None? && promises == old(promises) && timers == old(timers)
      ensures old(pendingSign).Some? ==>
        var o := if wallet.None? then SignFailed(TypeError) else outcome;
        && signing == (if wallet.None? then None else Some(old(pendingSign).value.message))
        && promises == SettleAt(old(promises), old(pendingSign).value.promise, SignVerdict(o))
        && timers == old(timers) + (if o.Signed? then [ClearSignAfterSuccess] else [])
    {
      if pendingSign.None? {
        return None;
      }
      var p := pendingSign.value;
      var o := if wallet.None? then SignFailed(TypeError) else outcome;
      signing := if wallet.None? then None else Some(p.message);
      match o
      case Signed(sig) =>
        Settle(p.promise, Resolved(sig));
        timers := timers + [ClearSignAfterSuccess];
      case SignFailed(e) =>
        Settle(p.promise, Rejected(e));
    }

    /** `confirmSignTypedData`, like `ConfirmSign`; returns the domain, types and message handed to the signer. */
    method ConfirmSignTypedData(outcome: SignOutcome) returns (signing: Option<TypedDataRequest>)
      requires Valid()
      modifies this`promises, this`timers
      ensures Valid()
      ensures old(pendingSignTypedData).None? ==> signing.None? && promises == old(promises) && timers == old(timers)
      ensures old(pendingSignTypedData).Some? ==>
        var d := old(pendingSignTypedData).value.data;
        var o := if wallet.None? then SignFailed(TypeError) else outcome;
        && signing == (if wallet.None? then None else Some(TypedDataRequest(Prop(d, "domain"), Prop(d, "types"), Prop(d, "message"))))
        && promises == SettleAt(old(promises), old(pendingSignTypedData).value.promise, SignVerdict(o))
        && timers == old(timers) + (if o.Signed? then [ClearTypedDataAfterSuccess] else [])
    {
      if pendingSignTypedData.None? {
        return None;
      }
      var p := pendingSignTypedData.value;
      var o := if wallet.None? then SignFailed(TypeError) else outcome;
      signing := if wallet.None? then None else Some(TypedDataRequest(Prop(p.data, "domain"), Prop(p.data, "types"), Prop(p.data, "message")));
      match o
      case Signed(sig) =>
        Settle(p.promise, Resolved(sig));
        timers := timers + [ClearTypedDataAfterSuccess];
      case SignFailed(e) =>
        Settle(p.promise, Rejected(e));
    }

    /** `rejectSign`: reject with "User rejected signing" and clear the slot. */
    method RejectSign()
      requires Valid()
      modifies this`pendingSign, this`promises, this`timers
      ensures Valid()
      ensures transactions == old(transactions)
      ensures old(pendingSign).None? ==>
        pendingSign == old(pendingSign) && promises == old(promises) && timers == old(timers)
      ensures old(pendingSign).Some? ==>
        && pendingSign.None?
        && promises == SettleAt(old(promises), old(pendingSign).value.promise, Rejected(SignRejected))
        && timers == old(timers) + (if Hidden() then [HideAfterReject] else [])
    {
      if pendingSign.None? {
        return;
      }
      Settle(pendingSign.value.promise, Rejected(SignRejected));
      pendingSign := None;
      if Hidden() {
        timers := timers + [HideAfterReject];
      }
    }

    /** `rejectSignTypedData`: reject with "User rejected typed data signing" and clear the slot. */
    method RejectSignTypedData()
      requires Valid()
      modifies this`pendingSignTypedData, this`promises, this`timers
      ensures Valid()
      ensures transactions == old(transactions)
      ensures old(pendingSignTypedData).None? ==>
        pendingSignTypedData == old(pendingSignTypedData) && promises == old(promises) && timers == old(timers)
      ensures old(pendingSignTypedData).Some? ==>
        && pendingSignTypedData.None?
        && promises == SettleAt(old(promises), old(pendingSignTypedData).value.promise, Rejected(TypedDataRejected))
        && timers == old(timers) + (if Hidden() then [HideAfterReject] else [])
    {
      if pendingSignTypedData.None? {
        return;
      }
      Settle(pendingSignTypedData.value.promise, Rejected(TypedDataRejected));
      pendingSignTypedData := None;
      if Hidden() {
        timers := timers + [HideAfterReject];
      }
    }

    /** The scheduled step `timers[i]` runs (the environment decides which one is due). */
    method FireTimer(i: nat)
      requires Valid() && i < |timers|
      modifies this`pendingTx, this`pendingSign, this`pendingSignTypedData, this`timers, this`modalOpen
      ensures Valid()
      ensures var t := old(timers)[i];
        pendingTx == (if t.ClearTxAfterSuccess? || t.ClearTxAfterFailure? then None else old(pendingTx))
      ensures pendingSign == (if old(timers)[i].ClearSignAfterSuccess? then None else old(pendingSign))
      ensures pendingSignTypedData == (if old(timers)[i].ClearTypedDataAfterSuccess? then None else old(pendingSignTypedData))
      ensures var t := old(timers)[i];
        modalOpen == (if t.HideAfterReject? || t.AutoHide? then false else old(modalOpen))
      ensures var rest := old(timers)[..i] + old(timers)[i + 1..];
        timers == (if RestartsAutoHide(old(timers)[i]) && Hidden() then Cancel(rest, AutoHide) + [AutoHide] else rest)
    {
      var t := timers[i];
      timers := timers[..i] + timers[i + 1..];
      if RestartsAutoHide(t) {
        ClearAfterSuccess(t);
      } else if t.ClearTxAfterFailure? {
        pendingTx := None;
      } else {
        HideWidget();
      }
    }

    /** A success clean-up: empty the slot, then restart auto-hide. */
    method ClearAfterSuccess(t: Timer)
      requires Valid() && RestartsAutoHide(t)
      modifies this`pendingTx, this`pendingSign, this`pendingSignTypedData, this`timers
      ensures Valid()
      ensures pendingTx == (if t.ClearTxAfterSuccess? then None else old(pendingTx))
      ensures pendingSign == (if t.ClearSignAfterSuccess? then None else old(pendingSign))
      ensures pendingSignTypedData == (if t.ClearTypedDataAfterSuccess? then None else old(pendingSignTypedData))
      ensures timers == if Hidden() then Cancel(old(timers), AutoHide) + [AutoHide] else old(timers)
    {
      if t.ClearTxAfterSuccess? {
        pendingTx := None;
      } else if t.ClearSignAfterSuccess? {
        pendingSign := None;
      } else {
        pendingSignTypedData := None;
      }
      StartAutoHide();
    }

    /** `confirmEndSession`: forget the account and log, remove the stored wallet, restore `window.ethereum`. */
    method ConfirmEndSession()
      requires Valid()
      modifies this`wallet, this`transactions, this`isActive, page`storage, page`ethereum
      ensures Valid()
      ensures wallet.None? && transactions == [] && !isActive
      ensures page.storage == old(page.storage) - {StorageKey}
      ensures page.ethereum == originalEthereum
    {
      page.storage := page.storage - {StorageKey};
      wallet := None;
      transactions := [];
      page.ethereum := originalEthereum;
      isActive := false;
    }

    /**
     * `destroy`: cancel auto-hide, restore `window.ethereum`, clear `window.tryfi`
     * and `window.TryFi`.  It keeps `isActive` and the stored wallet.
     */
    method Destroy()
      requires Valid()
      modifies this`timers, page`ethereum, page`tryfi, page`api
      ensures Valid()
      ensures timers == Cancel(old(timers), AutoHide)
      ensures page.ethereum == originalEthereum && page.tryfi == null && page.api == NoApi
    {
      timers := Cancel(timers, AutoHide);
      page.ethereum := originalEthereum;
      page.tryfi := null;
      page.api := NoApi;
    }
  }
}
