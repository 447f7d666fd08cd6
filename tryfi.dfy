/**
 * The package entry point: `TryFi.init` with its own validation and the
 * one-instance-per-page guard, and the facade that forwards to that instance.
 */
module TryFi {
  import opened Wrappers
  import opened JsValues
  import opened Configuration
  import opened Wallet

  /**
   * `init(config)`: an existing `window.tryfi` wins (config ignored); otherwise
   * validate, merge the defaults, construct, and publish the instance and facade.
   */
  method Init(page: Page, config: Config, rt: Runtime) returns (r: Result<TryFiWallet, Error>)
    modifies page
    ensures old(page.tryfi) != null ==> r == Ok(old(page.tryfi)) && unchanged(page)
    ensures old(page.tryfi) == null && ValidateInit(config).Err? ==>
      r == Err(ValidateInit(config).error) && unchanged(page)
    ensures old(page.tryfi) == null && ValidateInit(config).Ok? && WalletConfig(ValidateInit(config).value).Err? ==>
      r == Err(WalletConfig(ValidateInit(config).value).error) && unchanged(page)
    ensures old(page.tryfi) == null && ValidateInit(config).Ok? && WalletConfig(ValidateInit(config).value).Ok? ==>
      && r.Ok? && fresh(r.value) && r.value.Valid()
      && page.tryfi == r.value && page.api == InstanceApi && page.storage == old(page.storage)
      && r.value.Initial(page, WalletConfig(ValidateInit(config).value).value, rt, old(page.ethereum))
  {
    if page.tryfi != null {
      return Ok(page.tryfi);
    }
    r := Install(page, config, rt);
  }

  /** The part of `init` after the guard: validate, construct, publish `window.tryfi` and the facade. */
  method Install(page: Page, config: Config, rt: Runtime) returns (r: Result<TryFiWallet, Error>)
    modifies page
    ensures ValidateInit(config).Err? ==> r == Err(ValidateInit(config).error) && unchanged(page)
    ensures ValidateInit(config).Ok? && WalletConfig(ValidateInit(config).value).Err? ==>
      r == Err(WalletConfig(ValidateInit(config).value).error) && unchanged(page)
    ensures ValidateInit(config).Ok? && WalletConfig(ValidateInit(config).value).Ok? ==>
      && r.Ok? && fresh(r.value) && r.value.Valid()
      && page.tryfi == r.value && page.api == InstanceApi && page.storage == old(page.storage)
      && r.value.Initial(page, WalletConfig(ValidateInit(config).value).value, rt, old(page.ethereum))
  {
    match ValidateInit(config)
    case Err(e) =>
      return Err(e);
    case Ok(finalConfig) =>
      r := Publish(page, finalConfig, rt);
  }

  /** `window.tryfi = new TryFiWallet(finalConfig)` and the facade, once construction succeeded. */
  method Publish(page: Page, finalConfig: Config, rt: Runtime) returns (r: Result<TryFiWallet, Error>)
    modifies page
    ensures WalletConfig(finalConfig).Err? ==> r == Err(WalletConfig(finalConfig).error) && unchanged(page)
    ensures WalletConfig(finalConfig).Ok? ==>
      && r.Ok? && fresh(r.value) && r.value.Valid()
      && page.tryfi == r.value && page.api == InstanceApi && page.storage == old(page.storage)
      && r.value.Initial(page, WalletConfig(finalConfig).value, rt, old(page.ethereum))
  {
    var w := TryFiWallet.Create(page, finalConfig, rt);
    if w.Err? {
      return Err(w.error);
    }
    page.tryfi := w.value;
    page.api := InstanceApi;
    return w;
  }

  /** `TryFi.show()`: open the instance's widget; without an instance, nothing. */
  method Show(page: Page)
    modifies (if page.tryfi == null then {} else {page.tryfi})`modalOpen
    ensures page.tryfi != null ==> page.tryfi.modalOpen
  {
    if page.tryfi != null {
      page.tryfi.ShowWidget();
    }
  }

  /** `TryFi.hide()`. */
  method Hide(page: Page)
    modifies (if page.tryfi == null then {} else {page.tryfi})`modalOpen
    ensures page.tryfi != null ==> !page.tryfi.modalOpen
  {
    if page.tryfi != null {
      page.tryfi.HideWidget();
    }
  }

  /** `TryFi.toggle()`. */
  method Toggle(page: Page)
    modifies (if page.tryfi == null then {} else {page.tryfi})`modalOpen
    ensures page.tryfi != null ==> page.tryfi.modalOpen == !old(page.tryfi.modalOpen)
  {
    if page.tryfi != null {
      page.tryfi.ToggleWidget();
    }
  }

  /** `TryFi.destroy()`: tear the instance down, which also clears `window.tryfi`. */
  method Destroy(page: Page)
    requires page.tryfi != null ==> page.tryfi.page == page && page.tryfi.Valid()
    modifies page`ethereum, page`tryfi, page`api, (if page.tryfi == null then {} else {page.tryfi})`timers
    ensures old(page.tryfi) == null ==> unchanged(page)
    ensures old(page.tryfi) != null ==>
      && page.tryfi == null && page.api == NoApi
      && page.ethereum == old(page.tryfi).originalEthereum
      && page.storage == old(page.storage)
      && old(page.tryfi).timers == Cancel(old(page.tryfi.timers), AutoHide)
      && old(page.tryfi).isActive == old(page.tryfi.isActive)
  {
    if page.tryfi != null {
      page.tryfi.Destroy();
    }
  }
}
