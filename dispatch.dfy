/**
 * Routing of the injected provider's `request({ method, params })`: the
 * method-name switch as a closed datatype with a passthrough arm.
 */
module Dispatch {

  datatype Method =
    | EthRequestAccounts
    | EthAccounts
    | EthSendTransaction
    | PersonalSign
    | EthSignTypedDataV4
    | EthSign
    | Other(name: string)   // anything else: forwarded to the JSON-RPC provider

  /** The method names the provider answers itself. */
  const HandledNames: seq<string> :=
    ["eth_requestAccounts", "eth_accounts", "eth_sendTransaction", "personal_sign", "eth_signTypedData_v4", "eth_sign"]

  /** The methods that ask the user to confirm: the set `requiresUI` lists. */
  const ConfirmedMethods: set<Method> := {EthSendTransaction, PersonalSign, EthSignTypedDataV4, EthSign}

  function MethodName(m: Method): string {
    match m
    case EthRequestAccounts => "eth_requestAccounts"
    case EthAccounts => "eth_accounts"
    case EthSendTransaction => "eth_sendTransaction"
    case PersonalSign => "personal_sign"
    case EthSignTypedDataV4 => "eth_signTypedData_v4"
    case EthSign => "eth_sign"
    case Other(n) => n
  }

  /** A method value the switch can produce: an `Other` never carries a handled name. */
  predicate WellFormed(m: Method) {
    m.Other? ==> m.name !in HandledNames
  }

  /** The `switch (method)` of `request`: a handled name selects its case, any other name the default arm. */
  function ParseMethod(name: string): (m: Method)
    ensures WellFormed(m)
    ensures MethodName(m) == name
    ensures m.Other? <==> name !in HandledNames
  {
    match name
    case "eth_requestAccounts" => EthRequestAccounts
    case "eth_accounts" => EthAccounts
    case "eth_sendTransaction" => EthSendTransaction
    case "personal_sign" => PersonalSign
    case "eth_signTypedData_v4" => EthSignTypedDataV4
    case "eth_sign" => EthSign
    case _ => Other(name)
  }

  /** Parsing the name of a well-formed method gives that method back. */
  lemma ParseMethodName(m: Method)
    requires WellFormed(m)
    ensures ParseMethod(MethodName(m)) == m
  {
  }

  /** `requiresUI`: exactly the methods that open a confirmation screen. */
  function RequiresUI(name: string): (b: bool)
    ensures b <==> ParseMethod(name) in ConfirmedMethods
    ensures b ==> name in HandledNames
  {
    name in ["eth_sendTransaction", "personal_sign", "eth_signTypedData_v4", "eth_sign"]
  }
}
