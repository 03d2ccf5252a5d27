/** The bank transaction detail page: the lookup of the routed id in the transactions query,
    and its formatters. */
module TransactionDetailPage {
  import opened Common
  import opened Foreign
  import opened UseBank
  import BankFormat
  import BankPage
  import Text

  /** `list.find(t => t.id === id)`: the first transaction with that id. An absent route id
      matches nothing. */
  function FindById(list: seq<Transaction>, id: Option<string>): (r: Option<Transaction>)
    ensures r.Some? ==> id.Some? && r.value in list && r.value.id == id.value
    ensures r.None? <==> id.None? || forall t :: t in list ==> t.id != id.value
  {
    if list == [] || id.None? then None
    else if list[0].id == id.value then Some(list[0])
    else FindById(list[1..], id)
  }

  /** The match found is the first one: the transaction at the first position holding the id. */
  lemma {:induction false} FindByIdFirst(list: seq<Transaction>, id: string, k: nat)
    requires k < |list| && list[k].id == id
    requires forall j :: 0 <= j < k ==> list[j].id != id
    ensures FindById(list, Some(id)) == Some(list[k])
  {
    if k > 0 {
      FindByIdFirst(list[1..], id, k - 1);
    }
  }

  /** What a lookup on the page gives: the transaction found, nothing, or a TypeError. */
  datatype LookupResult = Found(transaction: Transaction) | Missing | Throws

  /** `v?.find(t => t.id === id)`: nothing for undefined or null, the first match in an array,
      and a TypeError for any other value, which has no `find` method to call. */
  function FindIn(v: Json<Transaction>, id: Option<string>): (r: LookupResult)
    ensures v.Absent? ==> r == Missing
    ensures v.Items? ==> r != Throws && (r.Found? <==> FindById(v.items, id).Some?)
    ensures v.Items? && r.Found? ==> r.transaction == FindById(v.items, id).value
    ensures v.Falsy? || v.Object? ==> r == Throws
  {
    match v
    case Absent => Missing
    case Items(list) => if FindById(list, id).Some? then Found(FindById(list, id).value) else Missing
    case _ => Throws
  }

  /** `transactionsData?.data?.find(...)`, as written. */
  function Lookup(transactionsData: Json<Transaction>, id: Option<string>): LookupResult {
    FindIn(DataField(transactionsData), id)
  }

  /** `Crashed` is the TypeError of line 13, thrown before any of the returns. */
  datatype View = Loading | NotFound | Details(transaction: Transaction) | Crashed

  function Render(isLoading: bool, found: LookupResult): (v: View)
    ensures found.Throws? <==> v.Crashed?
    ensures !found.Throws? && isLoading ==> v.Loading?
    ensures !isLoading && found.Missing? ==> v.NotFound?
    ensures !isLoading && found.Found? ==> v == Details(found.transaction)
  {
    if found.Throws? then Crashed
    else if isLoading then Loading
    else if found.Missing? then NotFound
    else Details(found.transaction)
  }

  /** As written, a list returned by the hook has no `data` property, so every transaction
      reads "Transaction not found" once loaded. */
  lemma AlwaysNotFoundAsWritten(body: Json<Transaction>, id: Option<string>)
    requires TransactionsResult(body).Items?
    ensures Render(false, Lookup(TransactionsResult(body), id)) == NotFound
  {
  }

  lemma NotFoundWitness(t: Transaction)
    ensures TransactionsResult(Object(Items([t]))) == Items([t])
    ensures Render(false, Lookup(TransactionsResult(Object(Items([t]))), Some(t.id))) == NotFound
  {
  }

  /** When the envelope's `data` is an object without an array or another falsy value such as
      0, the hook hands it on and the page calls `find` where there is no such method: it
      crashes, loading or not. */
  lemma NonArrayDataCrashes(inner: Json<Transaction>, isLoading: bool, id: Option<string>)
    requires inner.Object? || inner.Falsy?
    ensures TransactionsResult(Object(Object(inner))) == Object(inner)
    ensures Lookup(TransactionsResult(Object(Object(inner))), id) == Throws
    ensures Render(isLoading, Lookup(TransactionsResult(Object(Object(inner))), id)) == Crashed
  {
  }

  /** `transactionsData?.find(...)`: the lookup on the hook's own list. */
  function LookupCorrected(transactionsData: Json<Transaction>, id: Option<string>): LookupResult {
    FindIn(transactionsData, id)
  }

  /** With the single unwrapping, a transaction the service listed is found by its id (the
      first one, should ids repeat). */
  lemma CorrectedFindsListed(transactions: seq<Transaction>, k: nat)
    requires k < |transactions|
    requires forall j :: 0 <= j < k ==> transactions[j].id != transactions[k].id
    ensures LookupCorrected(TransactionsResult(Object(Items(transactions))), Some(transactions[k].id)) ==
              Found(transactions[k])
  {
    FindByIdFirst(transactions, transactions[k].id, k);
  }

  function FormatAddress(address: Option<string>, length: nat): string {
    BankFormat.Shorten(address, length, "N/A")
  }

  /** The detail page shortens an address exactly as the list page does; only the text for a
      missing address differs ("N/A" here, "-" there). */
  lemma FormatAddressMatchesListPage(address: Option<string>, length: nat)
    ensures Truthy(address) ==> FormatAddress(address, length) == BankPage.FormatAddress(address, length)
    ensures !Truthy(address) ==> FormatAddress(address, length) == "N/A" &&
                                 BankPage.FormatAddress(address, length) == "-"
  {
  }

  /** What `formatAmount` is given: `string | number | undefined`. */
  datatype AmountArg = Undefined | NumberArg(n: JsNumber) | StringArg(s: string)

  /** `formatAmount(amount)`: a falsy argument (undefined, "", 0 or NaN) reads "N/A"; a string is
      parsed with `parseFloat`, and one that parses to NaN is shown as it is; any other number is
      rendered by `Intl.NumberFormat`, the `format` input. */
  function FormatAmount(amount: AmountArg, parseFloat: string -> JsNumber, format: JsNumber -> string)
    : (r: string)
    ensures amount.Undefined? || amount == StringArg("") ==> r == "N/A"
    ensures amount.NumberArg? && (amount.n == NaN || amount.n == Finite(0.0)) ==> r == "N/A"
    ensures amount.NumberArg? && amount.n != NaN && amount.n != Finite(0.0) ==> r == format(amount.n)
    ensures amount.StringArg? && amount.s != "" && parseFloat(amount.s) == NaN ==> r == amount.s
    ensures amount.StringArg? && amount.s != "" && parseFloat(amount.s) != NaN ==> r == format(parseFloat(amount.s))
  {
    match amount
    case Undefined => "N/A"
    case NumberArg(n) => if n == NaN || n == Finite(0.0) then "N/A" else format(n)
    case StringArg(s) =>
      if s == "" then "N/A"
      else
        var num := parseFloat(s);
        if num == NaN then s else format(num)
  }

  /** The converted fiat amount (line 240) takes the string path: a non-numeric text is shown
      verbatim, and the text "0" is truthy, so it is formatted where the number 0 reads "N/A". */
  lemma StringAmountsShownOrFormatted(text: string, parseFloat: string -> JsNumber, format: JsNumber -> string)
    requires text != "" && parseFloat(text) == NaN
    requires parseFloat("0") == Finite(0.0)
    ensures FormatAmount(StringArg(text), parseFloat, format) == text
    ensures FormatAmount(StringArg("0"), parseFloat, format) == format(Finite(0.0))
    ensures FormatAmount(NumberArg(Finite(0.0)), parseFloat, format) == "N/A"
  {
  }

  /** `formatB3TR(amountB3TR)`. `weiToNumber` is the `BigInt` quotient by 10^18 plus the
      remainder over 1e18, as a number (None when `BigInt` throws); `parseFloat` is the fallback
      parse. Both hand `formatAmount` a number. */
  function FormatB3TR(amountB3TR: Option<string>, weiToNumber: string -> Option<JsNumber>,
                      parseFloat: string -> JsNumber, format: JsNumber -> string): (r: string)
    ensures !Truthy(amountB3TR) ==> r == "N/A"
    ensures Truthy(amountB3TR) && weiToNumber(amountB3TR.value).Some? ==>
              r == FormatAmount(NumberArg(weiToNumber(amountB3TR.value).value), parseFloat, format) + " B3TR"
    ensures Truthy(amountB3TR) && weiToNumber(amountB3TR.value).None? && parseFloat(amountB3TR.value) == NaN ==>
              r == "N/A"
    ensures Truthy(amountB3TR) && weiToNumber(amountB3TR.value).None? && parseFloat(amountB3TR.value) != NaN ==>
              r == FormatAmount(NumberArg(parseFloat(amountB3TR.value)), parseFloat, format) + " B3TR"
  {
    if !Truthy(amountB3TR) then "N/A"
    else
      var wei := weiToNumber(amountB3TR.value);
      if wei.Some? then FormatAmount(NumberArg(wei.value), parseFloat, format) + " B3TR"
      else
        var num := parseFloat(amountB3TR.value);
        if num != NaN then FormatAmount(NumberArg(num), parseFloat, format) + " B3TR" else "N/A"
  }

  /** An amount of zero wei reads "N/A B3TR": the zero is falsy inside `formatAmount`. */
  lemma ZeroAmountReadsNotAvailable(weiToNumber: string -> Option<JsNumber>, parseFloat: string -> JsNumber,
                                    format: JsNumber -> string)
    requires weiToNumber("0") == Some(Finite(0.0))
    ensures FormatB3TR(Some("0"), weiToNumber, parseFloat, format) == "N/A B3TR"
  {
  }

  /** The status as the header badge and the details card show it, with every "_" read as a
      space: the same text as on the list. */
  function StatusText(status: string): (r: string)
    ensures |r| == |status|
    ensures forall i :: 0 <= i < |status| ==> r[i] == if status[i] == '_' then ' ' else status[i]
    ensures r == BankFormat.StatusText(status)
  {
    Text.ReplaceAll(status, '_', ' ')
  }

  /** The detail page colours a status exactly as the list page does. */
  function StatusColor(status: string): string {
    BankFormat.StatusColor(status)
  }
}
