/**
 * Configuration checks and defaults.  Two layers validate a configuration:
 * `TryFi.init` (src/index.js) checks the chain description and merges its own
 * defaults, then the `TryFiWallet` constructor (src/TryFiWallet.js) checks its
 * own required fields and merges its defaults over the result.
 */
module Configuration {
  import opened Wrappers
  import opened JsValues

  /** A configuration object: field name to value; an absent field reads as `undefined`. */
  type Config = map<string, JsValue>

  function Get(c: Config, f: string): JsValue {
    if f in c then c[f] else Undefined
  }

  const MissingPrefix: string := "TryFi: Missing required configuration field: "
  const CurrencyMessage: string := "TryFi: nativeCurrency must have name, symbol, and decimals properties"
  const ExplorerMessage: string := "TryFi: blockExplorerUrls must be a non-empty array"

  function MissingField(f: string): Error {
    Error(MissingPrefix + f)
  }

  /** The fields the wallet constructor insists on, in the order it checks them. */
  const WalletRequired: seq<string> := ["network", "rpcUrl", "chainId"]
  /** The fields `init` insists on, in the order it checks them. */
  const InitRequired: seq<string> := ["chainName", "rpcUrl", "chainId", "nativeCurrency", "blockExplorerUrls"]

  const WalletDefaults: Config := map["position" := Str("bottom-right"), "theme" := Str("default")]
  const InitDefaults: Config := map["position" := Str("bottom-right"), "theme" := Str("defauldark")]

  /** The first field of `fields` whose value in `c` is falsy: the field a `for ... of` check loop throws for. */
  function FirstFalsy(c: Config, fields: seq<string>): (r: Option<string>)
    ensures r.Some? ==> r.value in fields && !Truthy(Get(c, r.value))
    ensures r.None? <==> forall i :: 0 <= i < |fields| ==> Truthy(Get(c, fields[i]))
  {
    if fields == [] then None
    else if !Truthy(Get(c, fields[0])) then Some(fields[0])
    else FirstFalsy(c, fields[1..])
  }

  /** The field reported is the first falsy one: every field before it is truthy. */
  lemma {:induction false} FirstFalsyIsFirst(c: Config, fields: seq<string>, k: nat)
    requires k < |fields| && !Truthy(Get(c, fields[k]))
    requires forall j :: 0 <= j < k ==> Truthy(Get(c, fields[j]))
    ensures FirstFalsy(c, fields) == Some(fields[k])
  {
    if k > 0 {
      assert Truthy(Get(c, fields[0]));
      FirstFalsyIsFirst(c, fields[1..], k - 1);
    }
  }

  /** The check loop of the wallet constructor: walks the required fields until one is falsy. */
  method FindMissingField(c: Config, fields: seq<string>) returns (missing: Option<string>)
    ensures missing == FirstFalsy(c, fields)
  {
    var i := 0;
    while i < |fields|
      invariant 0 <= i <= |fields|
      invariant FirstFalsy(c, fields) == FirstFalsy(c, fields[i..])
    {
      if !Truthy(Get(c, fields[i])) {
        return Some(fields[i]);
      }
      assert fields[i..][1..] == fields[i + 1..];
      i := i + 1;
    }
    return None;
  }

  /** `{ ...defaults, ...c }`: every field of `c` wins over the default of the same name. */
  function Merge(defaults: Config, c: Config): (r: Config)
    ensures r.Keys == defaults.Keys + c.Keys
    ensures forall f :: f in c ==> r[f] == c[f]
    ensures forall f :: f in defaults && f !in c ==> r[f] == defaults[f]
  {
    defaults + c
  }

  /** What the `TryFiWallet` constructor makes of its argument: a missing-field error, or its stored config. */
  function WalletConfig(c: Config): (r: Result<Config, Error>)
    ensures r.Ok? <==> forall i :: 0 <= i < |WalletRequired| ==> Truthy(Get(c, WalletRequired[i]))
    ensures r.Err? ==> FirstFalsy(c, WalletRequired).Some? && r.error == MissingField(FirstFalsy(c, WalletRequired).value)
    ensures r.Ok? ==> r.value == Merge(WalletDefaults, c)
  {
    match FirstFalsy(c, WalletRequired)
    case Some(f) => Err(MissingField(f))
    case None => Ok(Merge(WalletDefaults, c))
  }

  /** The stored config keeps every caller field; `position` defaults to `'bottom-right'`, `theme` to `'default'`. */
  lemma WalletConfigDefaults(c: Config)
    requires WalletConfig(c).Ok?
    ensures WalletConfig(c).value.Keys == c.Keys + {"position", "theme"}
    ensures forall f :: f in c ==> WalletConfig(c).value[f] == c[f]
    ensures "position" !in c ==> WalletConfig(c).value["position"] == Str("bottom-right")
    ensures "theme" !in c ==> WalletConfig(c).value["theme"] == Str("default")
  {
  }

  /** The shape `init` demands of `nativeCurrency`: truthy `name` and `symbol`, a number `decimals`. */
  predicate CurrencyShaped(nc: JsValue) {
    Truthy(Prop(nc, "name")) && Truthy(Prop(nc, "symbol")) && Prop(nc, "decimals").Num?
  }

  /** The shape `init` demands of `blockExplorerUrls`: an array with at least one element. */
  predicate ExplorersShaped(urls: JsValue) {
    urls.Arr? && |urls.elems| > 0
  }

  /** The checks of `TryFi.init` and the merged configuration it hands to the wallet constructor. */
  function ValidateInit(c: Config): (r: Result<Config, Error>)
    ensures r.Ok? <==>
      && (forall i :: 0 <= i < |InitRequired| ==> Truthy(Get(c, InitRequired[i])))
      && CurrencyShaped(Get(c, "nativeCurrency"))
      && ExplorersShaped(Get(c, "blockExplorerUrls"))
    ensures FirstFalsy(c, InitRequired).Some? ==> r == Err(MissingField(FirstFalsy(c, InitRequired).value))
    ensures FirstFalsy(c, InitRequired).None? && !CurrencyShaped(Get(c, "nativeCurrency")) ==> r == Err(Error(CurrencyMessage))
    ensures FirstFalsy(c, InitRequired).None? && CurrencyShaped(Get(c, "nativeCurrency")) && !ExplorersShaped(Get(c, "blockExplorerUrls"))
      ==> r == Err(Error(ExplorerMessage))
    ensures r.Ok? ==> r.value == Merge(InitDefaults, c)
  {
    match FirstFalsy(c, InitRequired)
    case Some(f) => Err(MissingField(f))
    case None =>
      if !CurrencyShaped(Get(c, "nativeCurrency")) then Err(Error(CurrencyMessage))
      else if !ExplorersShaped(Get(c, "blockExplorerUrls")) then Err(Error(ExplorerMessage))
      else Ok(Merge(InitDefaults, c))
  }

  /** The config `init` passes on keeps every caller field over `{position 'bottom-right', theme 'defauldark'}`. */
  lemma InitConfigDefaults(c: Config)
    requires ValidateInit(c).Ok?
    ensures ValidateInit(c).value.Keys == c.Keys + {"position", "theme"}
    ensures forall f :: f in c ==> ValidateInit(c).value[f] == c[f]
    ensures "position" !in c ==> ValidateInit(c).value["position"] == Str("bottom-right")
    ensures "theme" !in c ==> ValidateInit(c).value["theme"] == Str("defauldark")
  {
  }

  /** `init` names the first falsy required field, in the order chainName, rpcUrl, chainId, nativeCurrency, blockExplorerUrls. */
  lemma InitNamesFirstFalsyField(c: Config, k: nat)
    requires k < |InitRequired| && !Truthy(Get(c, InitRequired[k]))
    requires forall j :: 0 <= j < k ==> Truthy(Get(c, InitRequired[j]))
    ensures ValidateInit(c) == Err(MissingField(InitRequired[k]))
  {
    FirstFalsyIsFirst(c, InitRequired, k);
  }

  /** A chain id of 0 is falsy, so `init` rejects it as a missing field. */
  lemma ChainIdZeroIsMissing(c: Config)
    requires Truthy(Get(c, "chainName")) && Truthy(Get(c, "rpcUrl"))
    requires Get(c, "chainId") == Num(0)
    ensures ValidateInit(c) == Err(MissingField("chainId"))
  {
    InitNamesFirstFalsyField(c, 2);
  }

  /**
   * `init` never checks `network`, but the constructor it calls does: a
   * configuration `init` accepts still fails unless it has a truthy `network`.
   */
  lemma InitAlsoNeedsNetwork(c: Config)
    requires ValidateInit(c).Ok?
    ensures WalletConfig(ValidateInit(c).value).Ok? <==> Truthy(Get(c, "network"))
    ensures !Truthy(Get(c, "network")) ==> WalletConfig(ValidateInit(c).value) == Err(MissingField("network"))
  {
    var f := ValidateInit(c).value;
    assert Get(f, "network") == Get(c, "network");
    assert Get(f, "rpcUrl") == Get(c, "rpcUrl") && Truthy(Get(c, InitRequired[1]));
    assert Get(f, "chainId") == Get(c, "chainId") && Truthy(Get(c, InitRequired[2]));
    if !Truthy(Get(c, "network")) {
      FirstFalsyIsFirst(f, WalletRequired, 0);
    }
  }

  datatype Theme = DefaultTheme | GlassTheme

  /** The theme table the widget styles itself from. */
  const Themes: map<string, Theme> := map["default" := DefaultTheme, "glass" := GlassTheme]

  /** `themes[config.theme] || themes.default`. */
  function ThemeFor(name: JsValue): (t: Theme)
    ensures t == GlassTheme <==> name == Str("glass")
    ensures name.Str? && name.s in Themes ==> t == Themes[name.s]
  {
    if name.Str? && name.s in Themes then Themes[name.s] else Themes["default"]
  }

  /**
   * Without a caller theme, `init` passes its default `'defauldark'`, which is
   * not a theme name; the lookup falls back to the default theme.
   */
  lemma InitDefaultThemeFallsBack(c: Config)
    requires ValidateInit(c).Ok? && "theme" !in c
    ensures WalletConfig(ValidateInit(c).value).Ok? ==>
      ThemeFor(Get(WalletConfig(ValidateInit(c).value).value, "theme")) == DefaultTheme
  {
  }
}
