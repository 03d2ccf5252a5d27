/** Formatters shared in spirit by the bank list and transaction detail pages (each page
    declares its own copy; they differ only in the text shown for a missing value). */
module BankFormat {
  import opened Common
  import opened Text

  /** `formatAddress(address, length)`: `missing` for an absent or empty value, the value itself
      when it has at most `2 * length` characters, else its first and last `length` characters
      around "...". */
  function Shorten(address: Option<string>, length: nat, missing: string): (r: string)
    ensures !Truthy(address) ==> r == missing
    ensures Truthy(address) && |address.value| <= 2 * length ==> r == address.value
    ensures Truthy(address) && |address.value| > 2 * length ==>
              |r| == 2 * length + 3 && r[..length] == address.value[..length] &&
              r[length..length + 3] == "..." && r[length + 3..] == address.value[|address.value| - length..]
  {
    if !Truthy(address) then missing
    else
      var a := address.value;
      if |a| <= 2 * length then a else a[..length] + "..." + a[|a| - length..]
  }

  /** Shortening only shortens from `2 * length + 3` characters on: a value one or two
      characters over the limit comes out longer than it went in. */
  lemma ShortenLengthensJustOverLimit(address: string, length: nat, missing: string)
    requires |address| > 2 * length && address != ""
    ensures |Shorten(Some(address), length, missing)| <= |address| <==> |address| >= 2 * length + 3
  {
  }

  /** `getStatusColor(status)`: the colour for a transaction status, case-insensitively. */
  function StatusColor(status: string): (r: string)
    ensures Lower(status) == "completed" ==> r == "#4caf50"
    ensures Lower(status) == "pending" || Lower(status) == "pending_payment" ==> r == "#ff9800"
    ensures Lower(status) == "failed" ==> r == "#f44336"
    ensures Lower(status) !in {"completed", "pending", "pending_payment", "failed"} ==> r == "#757575"
  {
    var normalized := Lower(status);
    if normalized == "completed" then "#4caf50"
    else if normalized == "pending" || normalized == "pending_payment" then "#ff9800"
    else if normalized == "failed" then "#f44336"
    else "#757575"
  }

  /** The colour depends on the status only up to letter case. */
  lemma StatusColorIgnoresCase(a: string, b: string)
    requires Lower(a) == Lower(b)
    ensures StatusColor(a) == StatusColor(b)
  {
  }

  /** `status.replace(/_/g, " ")`: the status text shown. */
  function StatusText(status: string): (r: string)
    ensures |r| == |status| && '_' !in r
    ensures forall i :: 0 <= i < |status| ==> r[i] == if status[i] == '_' then ' ' else status[i]
  {
    ReplaceAll(status, '_', ' ')
  }

  /** The text of a shown status is shown unchanged, and two statuses that differ only in
      writing "_" or " " read the same. */
  lemma StatusTextStable(a: string, b: string)
    requires |a| == |b|
    requires forall i :: 0 <= i < |a| ==> a[i] == b[i] || (a[i] in "_ " && b[i] in "_ ")
    ensures StatusText(StatusText(a)) == StatusText(a)
    ensures StatusText(a) == StatusText(b)
  {
    var ra, rb := StatusText(a), StatusText(b);
    assert forall i :: 0 <= i < |a| ==> ra[i] == rb[i] by {
      forall i | 0 <= i < |a| ensures ra[i] == rb[i] {
        if a[i] != b[i] {
          assert a[i] in "_ " && b[i] in "_ ";
        }
      }
    }
  }
}

/** The bank service page: the transaction list (cell formatting, search, status counts), the
    exchange-rate search, and logout. */
module BankPage {
  import opened Common
  import opened Text
  import opened UseBank
  import BankFormat
  import BrowserStorage

  /** The list cell for a wallet address and for a transaction hash. */
  function FormatAddress(address: Option<string>, length: nat): string {
    BankFormat.Shorten(address, length, "-")
  }

  /** The hash cell keeps the first and last six characters of a hash longer than twelve. */
  function TxHashCell(hash: Option<string>): (r: string)
    ensures !Truthy(hash) ==> r == "-"
    ensures Truthy(hash) && |hash.value| <= 12 ==> r == hash.value
    ensures Truthy(hash) && |hash.value| > 12 ==>
              |r| == 15 && r[..6] == hash.value[..6] && r[6..9] == "..." &&
              r[9..] == hash.value[|hash.value| - 6..]
  {
    FormatAddress(hash, 6)
  }

  /** The transfer reference cell: "-" when missing, cut to 12 characters plus "..." when
      longer. */
  function TransferRefCell(reference: Option<string>): (r: string)
    ensures !Truthy(reference) ==> r == "-"
    ensures Truthy(reference) && |reference.value| <= 12 ==> r == reference.value
    ensures Truthy(reference) && |reference.value| > 12 ==> r == reference.value[..12] + "..."
  {
    if !Truthy(reference) then "-"
    else if |reference.value| > 12 then reference.value[..12] + "..." else reference.value
  }

  /** The badge class: `status-badge ` and the lower-cased status with "_" turned into "-". */
  function StatusClass(status: string): (r: string)
    ensures r == "status-badge " + ReplaceAll(Lower(status), '_', '-')
    ensures '_' !in r[13..] && |r| == 13 + |status|
  {
    "status-badge " + ReplaceAll(Lower(status), '_', '-')
  }

  /** `field?.toLowerCase().includes(search)`: an absent field never matches. */
  predicate OptionalIncludes(field: Option<string>, search: string) {
    field.Some? && Includes(Lower(field.value), search)
  }

  /** The transactions table's global filter. */
  predicate TransactionMatches(t: Transaction, filterValue: string) {
    var search := Lower(filterValue);
    Includes(Lower(t.id), search) || Includes(Lower(t.userId), search) ||
    OptionalIncludes(t.currency, search) || Includes(Lower(t.status), search) ||
    OptionalIncludes(t.walletAddress, search) || OptionalIncludes(t.transactionHash, search) ||
    OptionalIncludes(t.transferReference, search) || OptionalIncludes(t.bankName, search) ||
    OptionalIncludes(t.accountNumber, search) || OptionalIncludes(t.errorMessage, search)
  }

  /** A transaction with no optional fields matches only through its id, user or status, and
      the search ignores letter case. */
  lemma TransactionSearch(t: Transaction, q: string)
    ensures TransactionMatches(t, q) == TransactionMatches(t, Lower(q))
    ensures t.currency.None? && t.walletAddress.None? && t.transactionHash.None? &&
            t.transferReference.None? && t.bankName.None? && t.accountNumber.None? &&
            t.errorMessage.None? ==>
              (TransactionMatches(t, q) <==>
                 Includes(Lower(t.id), Lower(q)) || Includes(Lower(t.userId), Lower(q)) ||
                 Includes(Lower(t.status), Lower(q)))
  {
    LowerIdempotent(q);
  }

  /** The exchange-rate table's global filter. */
  predicate RateMatches(r: ExchangeRate, filterValue: string) {
    var search := Lower(filterValue);
    Includes(Lower(r.currencyCode), search) || Includes(Lower(r.currencyName), search) ||
    Includes(Lower(r.symbol), search)
  }

  /** The rate search ignores letter case, and an empty search keeps every rate. */
  lemma RateSearch(r: ExchangeRate, q: string)
    ensures RateMatches(r, q) == RateMatches(r, Lower(q))
    ensures RateMatches(r, "")
  {
    LowerIdempotent(q);
    EmptyIncluded(Lower(r.currencyCode));
  }

  /** The status counters. The upper-case alternatives in the source are already covered by
      the lower-cased comparison. */
  predicate IsCompleted(t: Transaction) { Lower(t.status) == "completed" || t.status == "COMPLETED" }
  predicate IsPending(t: Transaction) {
    Lower(t.status) == "pending" || Lower(t.status) == "pending_payment" || t.status == "PENDING_PAYMENT"
  }
  predicate IsFailed(t: Transaction) { Lower(t.status) == "failed" || t.status == "FAILED" }

  datatype Stats = Stats(total: nat, completed: nat, pending: nat, failed: nat)

  function TransactionStats(transactions: seq<Transaction>): (s: Stats)
    ensures s.total == |transactions|
    ensures s.completed == |Filter(transactions, IsCompleted)|
    ensures s.pending == |Filter(transactions, IsPending)|
    ensures s.failed == |Filter(transactions, IsFailed)|
  {
    Stats(|transactions|, Count(transactions, IsCompleted), Count(transactions, IsPending),
          Count(transactions, IsFailed))
  }

  lemma UpperCaseIsLowerCase()
    ensures Lower("COMPLETED") == "completed" && Lower("PENDING_PAYMENT") == "pending_payment"
    ensures Lower("FAILED") == "failed"
  {
  }

  /** The three counters select disjoint transactions, so they never add up to more than the
      total; each agrees with the badge colour. */
  lemma StatsBounded(transactions: seq<Transaction>)
    ensures var s := TransactionStats(transactions);
            s.completed + s.pending + s.failed <= s.total
    ensures forall t :: IsCompleted(t) ==> BankFormat.StatusColor(t.status) == "#4caf50"
    ensures forall t :: IsPending(t) ==> BankFormat.StatusColor(t.status) == "#ff9800"
    ensures forall t :: IsFailed(t) ==> BankFormat.StatusColor(t.status) == "#f44336"
  {
    UpperCaseIsLowerCase();
    DisjointCountsBounded(transactions, IsCompleted, IsPending, IsFailed);
  }

  /** `transactionsData?.data || []`, as the page reads the hook's result. */
  function PageTransactions(transactionsData: Json<Transaction>): (r: Json<Transaction>)
    ensures r.Items? || r.Object?
  {
    OrEmptyList(DataField(transactionsData))
  }

  /** As written, the page unwraps `.data` a second time: whenever the hook returns a list,
      the page shows no transactions. */
  lemma ListAlwaysEmptyAsWritten(body: Json<Transaction>)
    requires TransactionsResult(body).Items?
    ensures PageTransactions(TransactionsResult(body)) == Items([])
  {
  }

  lemma ListEmptyWitness(t: Transaction)
    ensures TransactionsResult(Object(Items([t]))) == Items([t])
    ensures PageTransactions(TransactionsResult(Object(Items([t])))) == Items([])
  {
  }

  /** `transactionsData || []`: the hook's own result, which the page evidently means to list. */
  function PageTransactionsCorrected(transactionsData: Json<Transaction>): (r: Json<Transaction>)
    ensures r.Items? || r.Object?
  {
    OrEmptyList(transactionsData)
  }

  /** With the single unwrapping, the page lists exactly what the service sent. */
  lemma CorrectedListsEnvelopeData(transactions: seq<Transaction>)
    ensures PageTransactionsCorrected(TransactionsResult(Object(Items(transactions)))) == Items(transactions)
  {
  }

  datatype Tab = Transactions | ExchangeRates

  class BankPage {
    const storage: BrowserStorage.LocalStorage
    var activeTab: Tab
    var searchQuery: string
    var statusFilter: string
    var startDate: string
    var endDate: string
    var showExchangeRateModal: bool
    var editingExchangeRate: Option<ExchangeRate>
    var deletingExchangeRate: Option<ExchangeRate>

    constructor (storage: BrowserStorage.LocalStorage)
      ensures this.storage == storage && activeTab == Transactions && searchQuery == ""
      ensures statusFilter == "" && startDate == "" && endDate == ""
      ensures !showExchangeRateModal && editingExchangeRate.None? && deletingExchangeRate.None?
    {
      this.storage := storage;
      activeTab := Transactions;
      searchQuery := "";
      statusFilter := "";
      startDate := "";
      endDate := "";
      showExchangeRateModal := false;
      editingExchangeRate := None;
      deletingExchangeRate := None;
    }

    /** `handleLogout`: every filter and modal back to its initial value, the bank key and URL
        removed (the reload that follows is not modelled). */
    method Logout()
      modifies this, storage
      ensures activeTab == Transactions && searchQuery == "" && statusFilter == ""
      ensures startDate == "" && endDate == ""
      ensures !showExchangeRateModal && editingExchangeRate.None? && deletingExchangeRate.None?
      ensures storage.writable == old(storage.writable)
      ensures storage.entries ==
                if storage.writable then old(storage.entries) - {"admin_api_key_bank", "admin_api_key_bank_url"}
                else old(storage.entries)
    {
      activeTab := Transactions;
      searchQuery := "";
      statusFilter := "";
      startDate := "";
      endDate := "";
      showExchangeRateModal := false;
      editingExchangeRate := None;
      deletingExchangeRate := None;
      var ok := storage.RemoveItem("admin_api_key_bank");
      if ok {
        ok := storage.RemoveItem("admin_api_key_bank_url");
      }
    }
  }
}
