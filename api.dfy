/** The generic HTTP client of src/lib/api.ts: fixed headers on every request and one error
    translation for every failure, and the configuration the `useApiClient` hook builds from the
    per-service entries (no page calls that hook). The HTTP transport itself is not modelled. */
module Api {
  import opened Common
  import opened Text
  import BrowserStorage
  import opened ApiKeyContext
  import Auth

  datatype ApiConfig = ApiConfig(baseUrl: string, apiKey: string)

  type Header = (string, string)

  /** The headers the client is created with. */
  function Headers(config: ApiConfig): (r: seq<Header>)
    ensures |r| == 2
    ensures r[0] == ("Content-Type", "application/json")
    ensures r[1] == ("x-api-key", config.apiKey)
  {
    [("Content-Type", "application/json"), ("x-api-key", config.apiKey)]
  }

  /** A failed request as the HTTP library reports it. `bodyMessage` is the `message` property
      of the response body (None when the body has none or it is empty). */
  datatype RequestError =
    | ResponseError(bodyMessage: Option<string>, statusText: string, status: int)
    | NoResponse
    | SetupError(message: string)

  const NetworkErrorMessage: string := "Network error: No response received from server"

  /** The message of the error the response interceptor throws. */
  function ErrorMessage(e: RequestError): (r: string)
    ensures e.ResponseError? && Truthy(e.bodyMessage) ==> r == e.bodyMessage.value
    ensures e.ResponseError? && !Truthy(e.bodyMessage) && e.statusText != "" ==> r == e.statusText
    ensures e.ResponseError? && !Truthy(e.bodyMessage) && e.statusText == "" ==>
              r == "HTTP error! status: " + IntToString(e.status)
    ensures e.NoResponse? ==> r == NetworkErrorMessage
    ensures e.SetupError? ==> r == "Request error: " + e.message
  {
    match e
    case ResponseError(bodyMessage, statusText, status) =>
      OrElse(bodyMessage, if statusText != "" then statusText else "HTTP error! status: " + IntToString(status))
    case NoResponse => NetworkErrorMessage
    case SetupError(message) => "Request error: " + message
  }

  /** Every failure is reported with a non-empty message, and a response without a message or a
      status text still names its status code. */
  lemma ErrorMessageNeverEmpty(e: RequestError)
    ensures ErrorMessage(e) != ""
    ensures e.ResponseError? && !Truthy(e.bodyMessage) && e.statusText == "" ==>
              Includes(ErrorMessage(e), IntToString(e.status))
  {
    if e.ResponseError? && !Truthy(e.bodyMessage) && e.statusText == "" {
      IncludesAt(ErrorMessage(e), IntToString(e.status), |"HTTP error! status: "|);
    }
  }

  /** `useApiClient(service)`: a client exists when both the key and the base URL are truthy. */
  function UseApiClient(entries: map<string, string>, service: Service): (r: Option<ApiConfig>)
    ensures r.Some? <==> Truthy(Auth.GetApiKey(entries, service))
    ensures r.Some? ==> r.value == ApiConfig(Auth.GetBaseUrl(entries, service), entries[Auth.KeyEntry(service)])
  {
    var apiKey := Auth.GetApiKey(entries, service);
    var baseUrl := Auth.GetBaseUrl(entries, service);
    if Truthy(apiKey) && baseUrl != "" then Some(ApiConfig(baseUrl, apiKey.value)) else None
  }
}
