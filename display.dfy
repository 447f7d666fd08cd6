/**
 * The pure parts of the activity view: `getFormattedTransactions` and the
 * lookup tables with fallbacks that style each entry.
 */
module Display {
  import opened TxLog

  function Min(a: nat, b: nat): nat {
    if a <= b then a else b
  }

  /** `s.slice(0, 6) + '...' + s.slice(-4)`; on short strings both slices clamp to the whole string. */
  function Shorten(s: string): (r: string)
    ensures |r| == Min(|s|, 6) + 3 + Min(|s|, 4)
    ensures r[..Min(|s|, 6)] == s[..Min(|s|, 6)]
    ensures r[Min(|s|, 6)..Min(|s|, 6) + 3] == "..."
    ensures r[|r| - Min(|s|, 4)..] == s[|s| - Min(|s|, 4)..]
  {
    s[..Min(|s|, 6)] + "..." + s[|s| - Min(|s|, 4)..]
  }

  /** An address shown in a subtitle, or `'Unknown'` when the record has none. */
  function Party(a: string): string {
    if a == "" then "Unknown" else Shorten(a)
  }

  /**
   * A displayed amount: `sign`, then the record's amount (`'0'` when it has
   * none) rounded to `places` decimals, then `unit`.  The rounding itself is
   * floating-point work that is not modelled.
   */
  datatype DisplayAmount = DisplayAmount(sign: string, figure: string, places: nat, unit: string)

  datatype Entry = Entry(hash: string, txType: string, title: string, subtitle: string, amount: DisplayAmount, status: string)

  /** The callback `getFormattedTransactions` maps over the log. */
  function FormatEntry(t: TxRecord): (e: Entry)
    ensures e.hash == t.hash && e.txType == t.txType
    ensures e.status != "" && (t.status != "" ==> e.status == t.status)
    ensures t.status == "" ==> e.status == Confirmed
    ensures e.title == "Token Approval" <==> t.txType == "approval"
    ensures e.title == "Received ETH" <==> t.txType == "receive"
    ensures e.title == "Sent ETH" <==> t.txType != "approval" && t.txType != "receive"
    ensures e.amount.figure != "" && (t.amount != "" ==> e.amount.figure == t.amount)
    ensures t.txType == "approval" ==> e.subtitle == "Spender: " + Party(t.spender)
    ensures t.txType == "receive" ==> e.subtitle == "From " + Party(t.from)
    ensures t.txType != "approval" && t.txType != "receive" ==> e.subtitle == "To " + Party(t.to)
    ensures e.amount.sign == (if t.txType == "send" then "-" else if t.txType == "approval" then "" else "+")
    ensures t.txType == "approval" ==> e.amount.places == 2 && e.amount.unit == " Tokens"
    ensures t.txType != "approval" ==> e.amount.places == 4 && e.amount.unit == " ETH"
  {
    var (title, subtitle) :=
      if t.txType == "approval" then ("Token Approval", "Spender: " + Party(t.spender))
      else if t.txType == "receive" then ("Received ETH", "From " + Party(t.from))
      else ("Sent ETH", "To " + Party(t.to));
    var figure := if t.amount == "" then "0" else t.amount;
    var amount :=
      if t.txType == "approval" then DisplayAmount("", figure, 2, " Tokens")
      else DisplayAmount(if t.txType == "send" then "-" else "+", figure, 4, " ETH");
    Entry(t.hash, if t.txType == "approval" then "approval" else t.txType, title, subtitle, amount,
          if t.status == "" then Confirmed else t.status)
  }

  function MapEntries(txs: seq<TxRecord>): (r: seq<Entry>)
    ensures |r| == |txs|
    ensures forall i :: 0 <= i < |txs| ==> r[i] == FormatEntry(txs[i])
  {
    if txs == [] then [] else [FormatEntry(txs[0])] + MapEntries(txs[1..])
  }

  function Reverse<T>(s: seq<T>): (r: seq<T>)
    ensures |r| == |s|
    ensures forall i :: 0 <= i < |s| ==> r[i] == s[|s| - 1 - i]
  {
    if s == [] then [] else Reverse(s[1..]) + [s[0]]
  }

  /** `getFormattedTransactions`: one entry per record, newest first. */
  function FormatTransactions(txs: seq<TxRecord>): (r: seq<Entry>)
    ensures |r| == |txs|
    ensures forall i :: 0 <= i < |txs| ==> r[i] == FormatEntry(txs[|txs| - 1 - i])
  {
    Reverse(MapEntries(txs))
  }

  lemma {:induction false} MapEntriesAppend(txs: seq<TxRecord>, t: TxRecord)
    ensures MapEntries(txs + [t]) == MapEntries(txs) + [FormatEntry(t)]
  {
    if txs != [] {
      assert (txs + [t])[1..] == txs[1..] + [t];
      MapEntriesAppend(txs[1..], t);
    }
  }

  lemma {:induction false} ReverseAppend<T>(s: seq<T>, x: T)
    ensures Reverse(s + [x]) == [x] + Reverse(s)
  {
    if s != [] {
      assert (s + [x])[1..] == s[1..] + [x];
      ReverseAppend(s[1..], x);
    }
  }

  /** Appending a record puts its entry first and shifts the older entries down by one. */
  lemma {:induction false} NewestEntryFirst(txs: seq<TxRecord>, t: TxRecord)
    ensures FormatTransactions(txs + [t]) == [FormatEntry(t)] + FormatTransactions(txs)
  {
    MapEntriesAppend(txs, t);
    ReverseAppend(MapEntries(txs), FormatEntry(t));
  }

  const SendBackground: string := "linear-gradient(135deg, #ef4444, #dc2626)"
  const ReceiveBackground: string := "linear-gradient(135deg, #22c55e, #16a34a)"
  const ApprovalBackground: string := "linear-gradient(135deg, #8b5cf6, #a855f7)"

  const Backgrounds: map<string, string> :=
    map["send" := SendBackground, "receive" := ReceiveBackground, "approval" := ApprovalBackground]

  /** `backgrounds[type] || backgrounds.approval`: every unknown type is styled as an approval. */
  function IconBackground(txType: string): (r: string)
    ensures r in Backgrounds.Values
    ensures txType in Backgrounds ==> r == Backgrounds[txType]
    ensures txType != "send" && txType != "receive" ==> r == ApprovalBackground
  {
    if txType in Backgrounds then Backgrounds[txType] else Backgrounds["approval"]
  }

  /** The three glyphs; their SVG markup is presentation. */
  datatype Icon = SendIcon | ReceiveIcon | ApprovalIcon

  const Icons: map<string, Icon> := map["send" := SendIcon, "receive" := ReceiveIcon, "approval" := ApprovalIcon]

  /** `icons[type] || icons.approval`. */
  function TransactionIcon(txType: string): (r: Icon)
    ensures r == SendIcon <==> txType == "send"
    ensures r == ReceiveIcon <==> txType == "receive"
  {
    if txType in Icons then Icons[txType] else Icons["approval"]
  }

  const AmountColors: map<string, string> := map["send" := "#f87171", "receive" := "#4ade80", "approval" := "#a855f7"]

  /** `colors[type] || colors.approval`. */
  function AmountColor(txType: string): (r: string)
    ensures r in AmountColors.Values
    ensures txType in AmountColors ==> r == AmountColors[txType]
    ensures txType != "send" && txType != "receive" ==> r == "#a855f7"
  {
    if txType in AmountColors then AmountColors[txType] else AmountColors["approval"]
  }

  const StatusColors: map<string, string> := map["confirmed" := "#4ade80", "pending" := "#f59e0b", "failed" := "#ef4444"]

  /** `colors[status] || colors.failed`: an unknown status is coloured as a failure. */
  function StatusColor(status: string): (r: string)
    ensures r in StatusColors.Values
    ensures status in StatusColors ==> r == StatusColors[status]
    ensures status != Confirmed && status != Pending ==> r == "#ef4444"
  {
    if status in StatusColors then StatusColors[status] else StatusColors["failed"]
  }
}
