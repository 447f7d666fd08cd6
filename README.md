# TryFi wallet widget — a Dafny model of its controller

TryFi is a browser widget that puts an EIP-1193 provider into
`window.ethereum`. The provider is backed by a throwaway key pair kept in
`localStorage`. A dApp's `request({ method, params })` calls go through this
provider. Account queries are answered directly. Sending a transaction,
`personal_sign`, `eth_sign` and `eth_signTypedData_v4` open a confirmation
screen. Each of the three confirmation kinds has a one-shot slot holding the
payload and the caller's promise. The user's Confirm or Reject settles that
promise. Everything else goes to the JSON-RPC node.

This project models that controller (`src/TryFiWallet.js`) and the package
entry point (`src/index.js`):

- `Configuration`: the two validation layers. `TryFi.init` checks the chain
  description. The `TryFiWallet` constructor checks `network`, `rpcUrl` and
  `chainId`. Each layer merges its own defaults. The theme lookup and its
  fallback are here too.
- `Dispatch`: the `request` switch as a closed datatype with an `Other`
  passthrough arm, and `requiresUI`.
- `TxLog`: the transaction records. Appending, the `findIndex`
  confirmation and the "mark the last record failed" rule are pure functions,
  with lemmas about how a whole `confirmTx` changes the log.
- `Display`: `getFormattedTransactions` (map, then reverse) and the style
  lookups that fall back to a default.
- `Wallet`: the class `TryFiWallet` and the class `Page`. `Page` stands for the
  window globals the controller writes: `window.ethereum`, `localStorage`,
  `window.tryfi` and `window.TryFi`. The class keeps the account, `isActive`,
  the log, the three pending slots and the promises it returned. It also keeps
  the timers it scheduled and whether the modal is open.
- `TryFi`: `init` with its singleton guard, and the `show`/`hide`/`toggle`/
  `destroy` facade.
- `Scenarios`: call sequences on one controller, with the end state each one
  is proved to reach.

JavaScript behaviour is written out rather than assumed:

- **Values.** A `JsValue` captures truthiness (`0`, `""`, `null` and `undefined`
  are falsy). Reading a missing property gives `undefined`. `||` and `slice`
  clamping follow JavaScript.
- **Object spread.** `{...a, ...b}` is map union where the right side wins.
- **Error paths.** The source's own `TypeError` paths are part of the model:
  eth_sign without an account, confirming after the session ended, and
  `eth_requestAccounts` when wallet creation failed.
- **Promises.** Each promise is an entry of a registry that can be settled
  once. Each slot holds the index of its promise.
- **Timers.** Every `setTimeout` the controller uses to clean up is an entry
  in a queue. The queue is run by `FireTimer`, so "cleared only later" is
  visible in the state.
- **Outside effects.** The network's and the signer's outcomes are method
  parameters (`TxOutcome`, `SignOutcome`). The key the random generator
  produces is a parameter too (`None` when generation throws). The clock
  reading is a parameter.
- **Library calls.** Ethers' key-to-address derivation, `formatEther` and
  `JSON.parse` are the functions of a `Runtime` value.

## Model

| member | source | states |
|---|---|---|
| Configuration.FirstFalsy | src/TryFiWallet.js:6-11 | The field reported is one of the required fields and is falsy in the config. No field is reported exactly when every required field is truthy. |
| Configuration.FirstFalsyIsFirst | src/TryFiWallet.js:7-11 | The field reported is the first falsy one in list order: given a falsy field whose predecessors are all truthy, that field is the one named. |
| Configuration.FindMissingField | src/TryFiWallet.js:6-11 | The constructor's `for ... of` loop stops at exactly the field `FirstFalsy` names, or finishes with none. |
| Configuration.Merge | src/index.js:33 | Object spread over defaults: the keys are those of both sides, caller fields win, and defaults fill only the fields the caller lacks. |
| Configuration.WalletConfig | src/TryFiWallet.js:6-17 | Construction succeeds iff `network`, `rpcUrl` and `chainId` are all truthy. Otherwise the error is "TryFi: Missing required configuration field: " plus the first falsy one. On success the stored config is the caller's config spread over the defaults. |
| Configuration.WalletConfigDefaults | src/TryFiWallet.js:13-17 | The stored config keeps every caller field. `position` defaults to `'bottom-right'` and `theme` to `'default'`, and these are the only fields added. |
| Configuration.ValidateInit | src/index.js:10-33 | `init` accepts iff the five required fields are truthy, `nativeCurrency` has truthy `name` and `symbol` and a number `decimals`, and `blockExplorerUrls` is a non-empty array. Each failure gives its own message, in check order. On success the result is the caller's config spread over `init`'s defaults. |
| Configuration.InitConfigDefaults | src/index.js:10-33 | The config `init` passes on keeps every caller field. `position` defaults to `'bottom-right'` and `theme` to `'defauldark'`, and these are the only fields added. |
| Configuration.InitNamesFirstFalsyField | src/index.js:16-21 | `init` throws naming the first falsy field in the order chainName, rpcUrl, chainId, nativeCurrency, blockExplorerUrls. |
| Configuration.ChainIdZeroIsMissing | src/index.js:16-21 | A `chainId` of 0 is rejected as a missing field, because 0 is falsy. |
| Configuration.InitAlsoNeedsNetwork | src/index.js:35 | A config `init` accepts still leads to a working controller iff it has a truthy `network`. Without one, construction throws the missing-field error for `network`. |
| Configuration.ThemeFor | src/TryFiWallet.js:52 | The glass theme is chosen iff the name is `'glass'`. A name in the table selects its theme. Any other value falls back to the default, with the exceptions listed under "Left out". |
| Configuration.InitDefaultThemeFallsBack | src/index.js:10-13 | With no caller theme, `init`'s default `'defauldark'` is not a theme name, so the widget uses the default theme. |
| Dispatch.ParseMethod | src/TryFiWallet.js:729-758 | The switch maps a name to its case and gives the name back unchanged. The default arm is taken iff the name is not one of the six handled ones. |
| Dispatch.ParseMethodName | src/TryFiWallet.js:729-758 | Parsing a method's name gives that method back. |
| Dispatch.RequiresUI | src/TryFiWallet.js:191-193 | True for exactly `eth_sendTransaction`, `personal_sign`, `eth_signTypedData_v4` and `eth_sign`. |
| TxLog.Outgoing | src/TryFiWallet.js:855-859 | The transaction sent goes to `to`. Its value is `value`, or 0 when falsy. Its gas limit is `gas`, or `'21000'` when falsy. |
| TxLog.ReadTxParams | src/TryFiWallet.js:799-815 | Rendering the confirmation screen succeeds iff `to` has a `slice` method (a string or an array) and `formatEther` accepts `value \|\| '0'`. A `to` without `slice` throws a TypeError, and otherwise `formatEther`'s error is thrown. On success the payload's `to`, `value` and `gas` are kept as given. |
| TxLog.NewRecord | src/TryFiWallet.js:863-870 | The pushed record carries the transaction hash, type `'send'`, status `'pending'`, the formatted amount, the clock reading and a string `to`. |
| TxLog.LogAfterConfirm | src/TryFiWallet.js:863-899 | One record is added unless submission failed, and it carries the outcome's hash, type `'send'` and the amount. Earlier records keep their hash, type and recipient: only statuses change. |
| TxLog.FindIndex | src/TryFiWallet.js:877 | The result is -1 iff no record has the hash. Otherwise it is the first position holding the hash. |
| TxLog.MarkConfirmed | src/TryFiWallet.js:877-881 | The length is kept, and only the first record with the hash changes: its status becomes `'confirmed'`. |
| TxLog.MarkLastFailed | src/TryFiWallet.js:893-899 | Records other than the last never change. The last changes only if it is `'pending'`, and then it becomes `'failed'`. |
| TxLog.ReceiptOkAppendsConfirmed | src/TryFiWallet.js:863-884 | With a hash the log does not hold, a successful receipt leaves the log as before plus one `'send'` record with status `'confirmed'`. |
| TxLog.ReceiptFailedAppendsFailed | src/TryFiWallet.js:863-899 | A receipt failure leaves the log as before plus one `'send'` record with status `'failed'`. |
| TxLog.ConfirmOnlyAdvances | src/TryFiWallet.js:863-899 | Provided a successful receipt's hash is not already in the log: one record is added unless submission failed, no earlier record moves other than from pending to confirmed or failed, and the added record does not stay pending. Without that proviso an older record can take the confirmation (see `TxLog.DuplicateHashConfirmsOlderRecord`). |
| TxLog.SubmitFailureMarksEarlierRecord | src/TryFiWallet.js:892-899 | A submission failure marks the last existing record failed when it is pending, although that record belongs to an earlier transaction. |
| TxLog.DuplicateHashConfirmsOlderRecord | src/TryFiWallet.js:877-881 | When an older record already has the hash, the older record is confirmed and the new one stays pending. |
| Display.Shorten | src/TryFiWallet.js:436 | `slice(0, 6) + '...' + slice(-4)` keeps the first up-to-6 and last up-to-4 characters around `'...'`. Both slices clamp on short strings. |
| Display.FormatEntry | src/TryFiWallet.js:430-456 | The entry keeps the hash and type, and a missing status becomes `'confirmed'`. The title is 'Token Approval' iff the type is approval, 'Received ETH' iff receive, and 'Sent ETH' otherwise. The subtitle names the spender, the sender or the recipient to match, or 'Unknown' when that field is empty. The sign is `-` for send, `+` for other ETH entries and none for approvals, with 2 places and ' Tokens' for approvals and 4 places and ' ETH' otherwise. A missing amount shows as `'0'`. |
| Display.MapEntries | src/TryFiWallet.js:430 | One entry per record, at the same position. |
| Display.MapEntriesAppend | src/TryFiWallet.js:430-456 | Mapping a log with one more record gives the old entries followed by the new record's entry. |
| Display.ReverseAppend | src/TryFiWallet.js:457 | Reversing a sequence with one more element puts that element first. |
| Display.Reverse | src/TryFiWallet.js:457 | Position i holds the element at position length-1-i. |
| Display.FormatTransactions | src/TryFiWallet.js:429-458 | One entry per record, newest first: entry i formats record length-1-i. |
| Display.NewestEntryFirst | src/TryFiWallet.js:429-458 | Appending a record puts its entry at the front and the older entries after it, in the same order. |
| Display.IconBackground | src/TryFiWallet.js:376-383 | The result is always one of the table's values: the type's own background when known, the approval one for any type other than send or receive. |
| Display.TransactionIcon | src/TryFiWallet.js:385-392 | The send icon iff the type is send, the receive icon iff receive, otherwise the approval icon. |
| Display.AmountColor | src/TryFiWallet.js:394-401 | The type's own colour when known, the approval colour for any type other than send or receive. |
| Display.StatusColor | src/TryFiWallet.js:403-410 | The status's own colour when known, the failure colour for any status other than confirmed or pending. |
| Wallet.SaveLoadRoundTrip | src/TryFiWallet.js:124-161 | Loading what `saveWallet` stored gives back the same account and the same log. |
| Wallet.Snapshot | src/TryFiWallet.js:156-159 | The stored record holds the account's private key and the whole log. |
| Wallet.Restore | src/TryFiWallet.js:129-131 | A loaded account has the stored key and the address derived from it. The log is the stored one, or `[]` when the record has none. |
| Wallet.EffectiveOutcome | src/TryFiWallet.js:855-870 | Without an account, `sendTransaction` throws a TypeError. A failed submission stays as it is. A submission that went through leads to a pushed record only when `formatEther` succeeded, and otherwise fails with `formatEther`'s error. |
| Wallet.TypedDataRenders | src/TryFiWallet.js:1002-1007 | The typed-data screen renders iff `data.domain` and `data.message` are neither null nor undefined, which for parsed data means an object holding both keys. |
| Wallet.SettleAt | src/TryFiWallet.js:884 | Settling changes only that promise, and only if it was still pending. |
| Wallet.SettleOnce | src/TryFiWallet.js:1072-1075 | A second settlement of a settled promise changes nothing. |
| Wallet.Cancel | src/TryFiWallet.js:184-189 | After `clearTimeout` no occurrence of the timer remains. Every other scheduled timer is still there, as many times as before. |
| Wallet.TryFiWallet.constructor | src/TryFiWallet.js:4-33 | The config is stored with defaults and `originalEthereum` is what `window.ethereum` held. All three slots are empty. A stored wallet is restored with its log and activates the provider. Without a stored wallet, nothing is installed. |
| Wallet.TryFiWallet.Create | src/TryFiWallet.js:6-11 | An invalid config throws the missing-field error and changes nothing. A valid one yields a fresh controller in its initial state. |
| Wallet.TryFiWallet.LoadWallet | src/TryFiWallet.js:124-135 | A stored record becomes the account and `transactions \|\| []`, and the controller is activated. Without one, nothing changes. |
| Wallet.TryFiWallet.CreateWallet | src/TryFiWallet.js:137-151 | A new key becomes the account with its derived address and an empty log. It is stored and the controller is activated. A failed key generation changes nothing. |
| Wallet.TryFiWallet.SaveWallet | src/TryFiWallet.js:153-161 | Without an account storage is untouched. Otherwise the stored record is the account's key and the whole current log. |
| Wallet.TryFiWallet.ActivateProvider | src/TryFiWallet.js:707-712 | While active nothing changes. Otherwise it becomes active and installs its own provider in `window.ethereum`. |
| Wallet.TryFiWallet.ShowWidget | src/TryFiWallet.js:659-680 | The modal is open afterwards. |
| Wallet.TryFiWallet.HideWidget | src/TryFiWallet.js:682-705 | The modal is closed afterwards. |
| Wallet.TryFiWallet.ToggleWidget | src/TryFiWallet.js:649-657 | The modal's open state is flipped. |
| Wallet.TryFiWallet.StartAutoHide | src/TryFiWallet.js:175-182 | In `'hidden'` position the earlier auto-hide timer is cancelled and exactly one new one is scheduled. Otherwise nothing changes. |
| Wallet.TryFiWallet.Request | src/TryFiWallet.js:721-759 | In `'hidden'` position a UI method first opens the widget. `eth_accounts` answers `[]` or `[address]` and changes nothing. `eth_requestAccounts` creates a wallet only when none exists and answers a one-address list. When key generation failed it throws a TypeError and changes nothing. It never touches the slots, the promises or the modal. The four confirmation methods reach their handlers with the source's parameter order, and each changes only its own slot. With an account, and for `eth_sign` always, the modal is open afterwards. Any other name is forwarded with the same method and params. No case touches the timers. |
| Wallet.TryFiWallet.Answer | src/TryFiWallet.js:730-757 | The non-confirmation cases: account queries, forwarding with the same method and params, and `eth_requestAccounts`, which changes nothing when key generation failed. |
| Wallet.TryFiWallet.ConnectAccounts | src/TryFiWallet.js:731-735 | With an account the answer is `[address]` and nothing changes. Otherwise a wallet is created, stored and activated, and its address is answered. When creation failed, reading `self.wallet.address` throws a TypeError. |
| Wallet.TryFiWallet.Confirmation | src/TryFiWallet.js:725-753 | In hidden position the widget is shown first. The four confirmation cases call their handlers with `params[0]`, `params[0]`, `(params[1], params[0])` and `(params[1], params[0])`. Each gets the effect its handler promises, and the other two slots keep their contents. |
| Wallet.TryFiWallet.HandleSendTransaction | src/TryFiWallet.js:781-815 | With no account it throws 'No wallet' and changes nothing. Otherwise it shows the widget and renders the screen before filling the slot. A `to` without a `slice` method (neither a string nor an array) throws a TypeError. A value `formatEther` rejects throws that error. In both cases the slot stays as it was. Any other payload fills `_pendingTx` with a new pending promise and returns it. |
| Wallet.TryFiWallet.HandleSign | src/TryFiWallet.js:926-937 | With no account it throws 'No wallet'. Otherwise it shows the widget and fills `_pendingSign` with the message and a new pending promise. |
| Wallet.TryFiWallet.HandleEthSign | src/TryFiWallet.js:767-779 | There is no account check. It always fills the shared `_pendingSign` slot and shows the widget. With no account the returned promise is rejected with a TypeError while the slot stays filled. |
| Wallet.TryFiWallet.HandleSignTypedData | src/TryFiWallet.js:976-988 | With no account it throws 'No wallet'. A payload `JSON.parse` rejects throws a SyntaxError, and one without data, domain or message throws a TypeError. Otherwise it fills `_pendingSignTypedData` with the parsed data and the address. |
| Wallet.TryFiWallet.ConfirmTx | src/TryFiWallet.js:844-909 | An empty slot changes nothing. Otherwise it sends `Outgoing` of the parameters, or nothing when no account exists. When `formatEther` throws while the record is built, the push is skipped and the catch runs, as for a failed submission. The log becomes `LogAfterConfirm` of that outcome, and the stored record follows every change. The promise resolves with the hash or rejects with the error. Clean-up is scheduled for later: the slot stays filled. |
| Wallet.TryFiWallet.SucceedTx | src/TryFiWallet.js:863-890 | The record is pushed and the first record with its hash is confirmed, then the log is stored. The promise resolves with the hash and the 2-second clear is scheduled. |
| Wallet.TryFiWallet.FailSubmittedTx | src/TryFiWallet.js:863-908 | The record is pushed and the log then becomes `MarkLastFailed`, which marks that new record failed. The log is stored, the promise rejects and the 4-second clear is scheduled. |
| Wallet.TryFiWallet.AppendRecord | src/TryFiWallet.js:871-872 | The log gains exactly the one record at its end, and storage holds the new log. |
| Wallet.TryFiWallet.ConfirmRecord | src/TryFiWallet.js:877-881 | The log becomes `MarkConfirmed` for the hash. It is saved only when some record has the hash. |
| Wallet.TryFiWallet.FailTx | src/TryFiWallet.js:892-908 | The log becomes `MarkLastFailed` of itself and is saved if it changed. The promise rejects, and the 4-second clear is scheduled. |
| Wallet.TryFiWallet.RejectTx | src/TryFiWallet.js:911-924 | An empty slot changes nothing. Otherwise the promise rejects with "User rejected transaction" and the slot is cleared. In hidden position a hide is scheduled. The log never changes. |
| Wallet.TryFiWallet.ConfirmSign | src/TryFiWallet.js:1035-1076 | An empty slot changes nothing. Otherwise the message goes to the signer and the promise resolves with the signature or rejects with the error (a TypeError without an account). Only success schedules the clear, so a failure keeps the slot. |
| Wallet.TryFiWallet.ConfirmSignTypedData | src/TryFiWallet.js:1078-1112 | This works like `ConfirmSign`. The signer receives the data's domain, types and message. |
| Wallet.TryFiWallet.RejectSign | src/TryFiWallet.js:1114-1127 | An empty slot changes nothing. Otherwise the promise rejects with "User rejected signing" and the slot is cleared. In hidden position a hide is scheduled. |
| Wallet.TryFiWallet.RejectSignTypedData | src/TryFiWallet.js:1129-1142 | An empty slot changes nothing. Otherwise the promise rejects with "User rejected typed data signing" and the slot is cleared. In hidden position a hide is scheduled. |
| Wallet.TryFiWallet.FireTimer | src/TryFiWallet.js:886-890 | The fired timer leaves the queue and does its step. A success clear empties its slot and restarts auto-hide. The failure clear empties `_pendingTx` only. The hide timers close the modal. |
| Wallet.TryFiWallet.ClearAfterSuccess | src/TryFiWallet.js:886-890 | The success clean-up empties its own slot only. In hidden position it then restarts the single auto-hide timer. |
| Wallet.TryFiWallet.ConfirmEndSession | src/TryFiWallet.js:629-647 | Afterwards there is no account and the log is empty. `isActive` is false, the stored wallet is removed, and `window.ethereum` is `originalEthereum` again. |
| Wallet.TryFiWallet.Destroy | src/TryFiWallet.js:1180-1209 | Auto-hide is cancelled and `window.ethereum` is restored. `window.tryfi` and `window.TryFi` become null, while `isActive` and the stored wallet are kept. |
| TryFi.Init | src/index.js:4-46 | An existing `window.tryfi` is returned and nothing changes. Otherwise a validation failure or a construction failure is returned and nothing changes. On success a fresh controller is returned, published as `window.tryfi`, and the facade replaces `window.TryFi`. |
| TryFi.Install | src/index.js:10-46 | With the guard passed, a validation failure is returned with the page unchanged. Otherwise the result is what `Publish` gives for the validated config. |
| TryFi.Publish | src/index.js:35-45 | A construction failure is returned with the page unchanged. On success the fresh controller is in its initial state, is published as `window.tryfi`, and the facade replaces `window.TryFi`. |
| TryFi.Show | src/index.js:48-50 | With an instance its modal is open afterwards, and no other state of the instance or the page changes. Without one nothing changes. |
| TryFi.Hide | src/index.js:52-54 | With an instance its modal is closed afterwards, and no other state of the instance or the page changes. Without one nothing changes. |
| TryFi.Toggle | src/index.js:56-58 | With an instance its modal state is flipped, and no other state of the instance or the page changes. Without one nothing changes. |
| TryFi.Destroy | src/index.js:60-62 | Without an instance nothing changes. With one, `window.tryfi` and `window.TryFi` are cleared, `window.ethereum` is the instance's original provider, and its auto-hide timer is cancelled. The instance keeps `isActive`, its account, its log and its slots. |
| Scenarios.SharedSignSlot | src/TryFiWallet.js:767-772 | After `personal_sign` and then `eth_sign`, a rejection settles only the second promise. The first caller's promise stays pending. |
| Scenarios.EndSessionThenReconnect | src/TryFiWallet.js:629-647 | After ending the session, connecting again creates and stores a new wallet. The provider is installed again. |
| Scenarios.ActivateAfterDestroy | src/TryFiWallet.js:1180-1209 | `destroy` keeps `isActive`, so a later activation does not reinstall the provider. `window.ethereum` stays the original. |
| Scenarios.ConfirmedSendIsStored | src/TryFiWallet.js:863-881 | A confirmed send into an empty log leaves one confirmed record, and the stored wallet holds it. |
| Scenarios.SendThenReload | src/TryFiWallet.js:863-881 | After a confirmed send, a controller constructed on the same page loads the same account and the one confirmed record. |
| Scenarios.SlotClearedOnlyByTimer | src/TryFiWallet.js:886-890 | After a successful receipt the slot is still filled. It empties when the clean-up timer fires. |
| Scenarios.RetryAfterSignFailure | src/TryFiWallet.js:1072-1075 | After a failed signature the slot remains, so a retry signs the same message. The page's promise stays rejected. |
| Scenarios.ConfirmAfterReject | src/TryFiWallet.js:911-916 | After a rejection, confirming sends nothing and leaves the log unchanged. |

## Left out

- Rendering: HTML, CSS and DOM. All `render*` and `show*Status`, `updateContent`, tabs, the receive/QR screen and copy-to-clipboard are left out. Showing and hiding are reduced to whether the modal is open.
- The 300 ms hide animation: `HideWidget` closes the modal at once. `ToggleWidget` therefore reads the closed state that the source only reaches after the animation.
- Rendering failures are modelled only where they decide whether a slot is filled. That covers a transaction payload whose `to` has no `slice` method, a `value` that `formatEther` rejects, typed data without `domain` or `message`, and eth_sign without an account. Other exception sources inside the rendering code are not modelled.
- `TxLog.NewRecord`: a `to` that is an array, which the confirmation screen can render, is recorded as the empty string. The log keeps text fields only.
- Ethers itself: key generation, address derivation, signing, sending, `tx.wait`, `formatEther` and the JSON-RPC provider. These are foreign library and network code. They appear only as parameters and as the functions of `Runtime`.
- Timing: the 2 s, 4 s, 1 s and 3 s delays and the order in which due timers fire. `FireTimer` lets any scheduled timer fire.
- `Wallet.TryFiWallet.ConfirmTx`: runs to its end in one step with the outcome given. Calls that interleave at its `await` points are not modelled, for example a Reject pressed while a transaction is in flight.
- `Wallet.TryFiWallet.ConfirmSign` and `Wallet.TryFiWallet.ConfirmSignTypedData`: likewise atomic, for the same reason.
- Balance polling (`getBalance`, `updateBalance`, the 30 s interval) and the in-widget send form (`showSendForm`, `sendETH`). These are not part of the provider's confirmation core.
- Floating-point amount formatting (`parseFloat(...).toFixed(n)`). `Display.FormatEntry` keeps the amount string and the number of places.
- The `eth_sign` log line versus the `personal_sign` log line in `confirmSign`: console output only.
- The JSON encoding of the stored record: storage is an abstract map from key to record, and records read back are the records written.
- `Configuration.ThemeFor`: a non-string theme value always falls back to the default. JavaScript would turn it into a property name first, so an array `['glass']` would pick the glass theme. An inherited `Object.prototype` name such as `'toString'` is also treated as unknown, although the source's `themes[name] || themes.default` returns that inherited function instead of the default theme.
- Display lookups (`Display.IconBackground`, `Display.TransactionIcon`, `Display.AmountColor`, `Display.StatusColor`): inherited `Object.prototype` property names such as `toString` are treated like any other unknown key.
- Strings are sequences of Unicode characters, not UTF-16 code units. So `Display.Shorten` slices text outside the Basic Multilingual Plane by a different count than JavaScript does. Hex addresses are unaffected.
- `params` is always a sequence. A request with `params: null`, where `params[0]` throws a TypeError in the source, cannot be expressed.
- Construction failures raised after validation, from the DOM or the provider library, are not modelled.
- src/utils/ethers.js, src/utils/qrious.js, the theme style sheets, rollup.config.js and dist/tryfi.d.ts are not part of this model.
