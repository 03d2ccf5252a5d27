/** The bank service hooks: the transactions query string, the unwrapping of the response
    envelopes, the exchange-rate mapping and the exchange-rate requests. The HTTP client is not
    modelled; a response body is an input. */
module UseBank {
  import opened Common
  import opened Foreign
  import UrlSearchParams
  import Text

  /** The shape of a JSON value, as far as these hooks look at it: missing (undefined or
      null), another falsy value, an array, or another object with its (possibly missing)
      `data` property. */
  datatype Json<T> = Absent | Falsy | Items(items: seq<T>) | Object(data: Json<T>)

  /** `v?.data`: only an object has a `data` property. */
  function DataField<T>(v: Json<T>): (r: Json<T>)
    ensures v.Object? ==> r == v.data
    ensures !v.Object? ==> r == Absent
  {
    if v.Object? then v.data else Absent
  }

  /** `v || []`. */
  function OrEmptyList<T>(v: Json<T>): (r: Json<T>)
    ensures v.Absent? || v.Falsy? ==> r == Items([])
    ensures v.Items? || v.Object? ==> r == v
  {
    if v.Absent? || v.Falsy? then Items([]) else v
  }

  /** A bank transaction, with the optional fields the pages read. */
  datatype Transaction = Transaction(
    id: string,
    userId: string,
    currency: Option<string>,
    status: string,
    walletAddress: Option<string>,
    transactionHash: Option<string>,
    transferReference: Option<string>,
    bankName: Option<string>,
    accountNumber: Option<string>,
    errorMessage: Option<string>,
    amountB3TR: Option<string>)

  /** One appended parameter, present only when its value is a non-empty string. */
  function OptionalParam(name: string, value: Option<string>): (r: seq<UrlSearchParams.Pair>)
    ensures Truthy(value) ==> r == [(name, value.value)]
    ensures !Truthy(value) ==> r == []
  {
    if Truthy(value) then [(name, value.value)] else []
  }

  /** 1 when the filter contributes a parameter, else 0. */
  function Present(value: Option<string>): nat {
    if Truthy(value) then 1 else 0
  }

  /** The three optional filter parameters: status, startDate and endDate, in that order, each
      only when non-empty. The length and the position of every present filter fix the list. */
  function FilterParams(statusFilter: Option<string>, startDate: Option<string>, endDate: Option<string>)
    : (r: seq<UrlSearchParams.Pair>)
    ensures |r| == Present(statusFilter) + Present(startDate) + Present(endDate)
    ensures Truthy(statusFilter) ==> r[0] == ("status", statusFilter.value)
    ensures Truthy(startDate) ==> r[Present(statusFilter)] == ("startDate", startDate.value)
    ensures Truthy(endDate) ==> r[Present(statusFilter) + Present(startDate)] == ("endDate", endDate.value)
  {
    OptionalParam("status", statusFilter) + OptionalParam("startDate", startDate) +
    OptionalParam("endDate", endDate)
  }

  /** The parameters of the transactions request: "limit=100" first, then status, startDate and
      endDate, each only when non-empty, in that order. */
  function TransactionsParams(statusFilter: Option<string>, startDate: Option<string>, endDate: Option<string>)
    : (r: seq<UrlSearchParams.Pair>)
    ensures |r| == 1 + Present(statusFilter) + Present(startDate) + Present(endDate)
    ensures r[0] == ("limit", "100")
    ensures Truthy(statusFilter) ==> r[1] == ("status", statusFilter.value)
    ensures Truthy(startDate) ==> r[1 + Present(statusFilter)] == ("startDate", startDate.value)
    ensures Truthy(endDate) ==> r[1 + Present(statusFilter) + Present(startDate)] == ("endDate", endDate.value)
  {
    [("limit", "100")] + FilterParams(statusFilter, startDate, endDate)
  }

  /** The query string, built by successive `append`s. */
  method TransactionsQueryString(statusFilter: Option<string>, startDate: Option<string>, endDate: Option<string>)
    returns (query: string)
    ensures query == UrlSearchParams.Serialize(TransactionsParams(statusFilter, startDate, endDate))
  {
    var params := new UrlSearchParams.SearchParams();
    params.Append("limit", "100");
    if Truthy(statusFilter) {
      params.Append("status", statusFilter.value);
    }
    if Truthy(startDate) {
      params.Append("startDate", startDate.value);
    }
    if Truthy(endDate) {
      params.Append("endDate", endDate.value);
    }
    assert params.pairs == TransactionsParams(statusFilter, startDate, endDate);
    query := params.ToString();
  }

  /** The transactions query always starts with the limit and carries one field per present
      filter, however the filter values are spelled. */
  lemma TransactionsQueryShape(statusFilter: Option<string>, startDate: Option<string>, endDate: Option<string>)
    ensures var query := UrlSearchParams.Serialize(TransactionsParams(statusFilter, startDate, endDate));
            "limit=100" <= query &&
            UrlSearchParams.Occurrences(query, '&') ==
              (if Truthy(statusFilter) then 1 else 0) + (if Truthy(startDate) then 1 else 0) +
              (if Truthy(endDate) then 1 else 0)
  {
    var pairs := TransactionsParams(statusFilter, startDate, endDate);
    UrlSearchParams.SerializeSeparators(pairs);
    LimitEncoding();
    assert UrlSearchParams.EncodePair(pairs[0]) == "limit=100";
  }

  lemma LimitEncoding()
    ensures UrlSearchParams.EncodePair(("limit", "100")) == "limit=100"
  {
    var key, value := "limit", "100";
    assert forall i :: 0 <= i < |key| ==> Text.IsLowerAscii(key[i]);
    assert forall i :: 0 <= i < |value| ==> Text.IsDigit(value[i]);
    Text.FormEncodeAlphanumeric(key);
    Text.FormEncodeAlphanumeric(value);
    assert UrlSearchParams.EncodePair((key, value)) == key + "=" + value;
  }

  /** The transactions path. */
  function TransactionsPath(query: string): string {
    "/api/admin/transactions?" + query
  }

  /** `response.data?.data || []`: the envelope's data, or an empty list when it has none. */
  function TransactionsResult(body: Json<Transaction>): (r: Json<Transaction>)
    ensures body.Object? && body.data.Items? ==> r == body.data
    ensures body.Object? && (body.data.Absent? || body.data.Falsy?) ==> r == Items([])
    ensures body.Object? && body.data.Object? ==> r == body.data
    ensures !body.Object? ==> r == Items([])
    ensures r.Items? || r.Object?
  {
    OrEmptyList(DataField(body))
  }

  /** `enabled: !!bankApiKey && activeTab === tab`. */
  predicate QueryEnabled(bankApiKey: string, activeTab: Option<string>, tab: string) {
    bankApiKey != "" && activeTab == Some(tab)
  }

  /** The transactions and exchange-rates queries are never enabled together, and neither runs
      without a key or an active tab. */
  lemma AtMostOneQueryEnabled(bankApiKey: string, activeTab: Option<string>)
    ensures !(QueryEnabled(bankApiKey, activeTab, "transactions") &&
              QueryEnabled(bankApiKey, activeTab, "exchange-rates"))
    ensures bankApiKey == "" || activeTab.None? ==>
              !QueryEnabled(bankApiKey, activeTab, "transactions") &&
              !QueryEnabled(bankApiKey, activeTab, "exchange-rates")
  {
  }

  /** An exchange rate as the service sends it. */
  datatype RawRate = RawRate(code: string, name: string, symbol: string, rateToB3TR: JsNumber)

  /** An exchange rate as the pages use it. */
  datatype ExchangeRate = ExchangeRate(
    id: string, currencyCode: string, currencyName: string, symbol: string, rateToB3TR: string)

  /** The envelope's data when it is an array, else the body when it is an array, else none. */
  function RatesSource(body: Json<RawRate>): (r: seq<RawRate>)
    ensures DataField(body).Items? ==> r == DataField(body).items
    ensures !DataField(body).Items? && body.Items? ==> r == body.items
    ensures !DataField(body).Items? && !body.Items? ==> r == []
  {
    if DataField(body).Items? then DataField(body).items
    else if body.Items? then body.items
    else []
  }

  /** One rate as the list shows it: the id and the currency code are both `rate.code`, the
      name and symbol are copied, and the rate is `rate.rateToB3TR.toString()`, where
      `numberToString` is `Number.prototype.toString`. */
  function MapRate(rate: RawRate, numberToString: JsNumber -> string): ExchangeRate {
    ExchangeRate(rate.code, rate.code, rate.name, rate.symbol, numberToString(rate.rateToB3TR))
  }

  function RatesResult(body: Json<RawRate>, numberToString: JsNumber -> string): (r: seq<ExchangeRate>)
    ensures |r| == |RatesSource(body)|
    ensures forall i :: 0 <= i < |r| ==>
              var raw := RatesSource(body)[i];
              r[i].id == raw.code && r[i].currencyCode == raw.code && r[i].currencyName == raw.name &&
              r[i].symbol == raw.symbol && r[i].rateToB3TR == numberToString(raw.rateToB3TR)
  {
    MapSeq(RatesSource(body), (rate: RawRate) => MapRate(rate, numberToString))
  }

  /** Both response shapes give the same rates: `{ data: [...] }` and a bare array. */
  lemma RatesEnvelopeOrArray(rates: seq<RawRate>, numberToString: JsNumber -> string)
    ensures RatesResult(Object(Items(rates)), numberToString) == RatesResult(Items(rates), numberToString)
    ensures RatesResult(Object(Absent), numberToString) == []
  {
  }

  /** The exchange-rate form input. */
  datatype ExchangeRateInput = ExchangeRateInput(
    currencyCode: string, currencyName: string, symbol: string, rateToB3TR: string)

  datatype ExchangeRateBody = ExchangeRateBody(
    currencyCode: string, currencyName: string, symbol: string, rateToB3TR: JsNumber)

  datatype Request<B> = Post(path: string, body: B) | Delete(path: string)

  /** The set-exchange-rate mutation: one POST, whether the rate is created or edited.
      `parseFloat` is the number library's. */
  function SetExchangeRate(data: ExchangeRateInput, isEditing: bool, parseFloat: string -> JsNumber)
    : (r: Request<ExchangeRateBody>)
    ensures r.Post? && r.path == "/api/admin/exchange-rate"
    ensures r.body == ExchangeRateBody(data.currencyCode, data.currencyName, data.symbol, parseFloat(data.rateToB3TR))
  {
    Post("/api/admin/exchange-rate",
         ExchangeRateBody(data.currencyCode, data.currencyName, data.symbol, parseFloat(data.rateToB3TR)))
  }

  /** Editing and creating send the same request. */
  lemma EditingDoesNotMatter(data: ExchangeRateInput, parseFloat: string -> JsNumber)
    ensures SetExchangeRate(data, true, parseFloat) == SetExchangeRate(data, false, parseFloat)
  {
  }

  function DeleteExchangeRate(currencyCode: string): (r: Request<ExchangeRateBody>)
    ensures r.Delete? && r.path == "/api/admin/exchange-rate/" + currencyCode
  {
    Delete("/api/admin/exchange-rate/" + currencyCode)
  }
}
