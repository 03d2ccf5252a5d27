/** How a service page signs in and out. The pages write the credentials through the
    per-service helpers ("admin_api_key_<service>" and its "_url" entry), while whether a page is
    signed in is read from the provider's record under "admin_api_keys". The per-service entries
    are read only by `getBaseUrl` (the email page's "Base URL" line and the prompt's ignored
    `defaultBaseUrl` prop) and by the configuration `useApiClient` would build, a hook nothing
    calls; the requests themselves use fixed clients and the provider's key. The page reloads after each write, so the provider reloads its record
    from storage. */
module CredentialFlow {
  import opened Common
  import BrowserStorage
  import opened ApiKeyContext
  import Auth
  import Api
  import Text

  /** After a reload, whether the page for `service` shows its content rather than the prompt. */
  predicate SignedIn(entries: map<string, string>, parse: string -> Option<StoredKeys>, service: Service) {
    Authenticated(LoadKeys(BrowserStorage.Lookup(entries, StorageKey), parse), service)
  }

  /** The storage after `handleAuthenticate(apiKey, baseUrl)` as written. */
  function PromptWrites(entries: map<string, string>, service: Service, apiKey: string, baseUrl: string)
    : (r: map<string, string>)
    ensures Auth.GetApiKey(r, service) == Some(apiKey)
    ensures baseUrl != "" ==> Auth.GetBaseUrl(r, service) == baseUrl
    ensures BrowserStorage.Lookup(r, StorageKey) == BrowserStorage.Lookup(entries, StorageKey)
  {
    Auth.AllEntriesDistinct();
    Auth.EntriesDistinct(service, service);
    entries[Auth.KeyEntry(service) := apiKey][Auth.UrlEntry(service) := baseUrl]
  }

  /** `handleAuthenticate` as the pages write it: key first, then URL (a throwing write stops
      the handler). */
  method Authenticate(storage: BrowserStorage.LocalStorage, service: Service, apiKey: string, baseUrl: string)
    modifies storage`entries
    ensures storage.entries ==
              if storage.writable then PromptWrites(old(storage.entries), service, apiKey, baseUrl)
              else old(storage.entries)
  {
    var ok := Auth.SetApiKey(storage, service, apiKey);
    if ok {
      ok := Auth.SetBaseUrl(storage, service, baseUrl);
    }
  }

  /** Signing in through the prompt never changes whether any page is signed in, although the
      configuration `useApiClient` would build (a hook nothing calls) now has the key. */
  lemma PromptNeverSignsIn(entries: map<string, string>, parse: string -> Option<StoredKeys>,
                           service: Service, apiKey: string, baseUrl: string)
    ensures forall s: Service :: SignedIn(PromptWrites(entries, service, apiKey, baseUrl), parse, s) ==
                                 SignedIn(entries, parse, s)
    ensures apiKey != "" ==> Api.UseApiClient(PromptWrites(entries, service, apiKey, baseUrl), service).Some?
  {
    var after := PromptWrites(entries, service, apiKey, baseUrl);
    assert BrowserStorage.Lookup(after, StorageKey) == BrowserStorage.Lookup(entries, StorageKey);
  }

  /** On a fresh browser, entering a key leaves the page on the prompt. */
  lemma PromptLoopsOnFreshBrowser(parse: string -> Option<StoredKeys>, service: Service)
    ensures !SignedIn(PromptWrites(map[], service, "key", "https://api.example"), parse, service)
  {
    PromptNeverSignsIn(map[], parse, service, "key", "https://api.example");
  }

  // ---------------------------------------------------------------------------------------------
  // The key prompt. It calls `onAuthenticate` with the trimmed key alone, so the pages' second
  // parameter `baseUrl` is `undefined`, and `localStorage.setItem` stores it as the text
  // "undefined".

  /** `String(undefined)`: what `localStorage.setItem` stores for a missing value. */
  const UndefinedText := "undefined"

  /** The prompt's submit followed by the page's handler: an empty trimmed key shows the error
      and writes nothing; otherwise the handler runs with the trimmed key and an undefined URL. */
  function PromptSubmit(entries: map<string, string>, service: Service, typed: string)
    : (r: Option<map<string, string>>)
    ensures r.None? <==> Text.Trim(typed) == ""
  {
    var apiKey := Text.Trim(typed);
    if apiKey == "" then None else Some(PromptWrites(entries, service, apiKey, UndefinedText))
  }

  /** After the prompt `getBaseUrl` reads the text "undefined", whatever URL was stored
      before and whatever the service's default is; so would the configuration `useApiClient`
      builds, a hook nothing calls. */
  lemma PromptStoresUndefinedUrl(entries: map<string, string>, service: Service, typed: string)
    requires Text.Trim(typed) != ""
    ensures PromptSubmit(entries, service, typed).Some?
    ensures var after := PromptSubmit(entries, service, typed).value;
            Auth.GetApiKey(after, service) == Some(Text.Trim(typed)) &&
            Auth.GetBaseUrl(after, service) == UndefinedText &&
            Api.UseApiClient(after, service) == Some(Api.ApiConfig(UndefinedText, Text.Trim(typed)))
  {
    var after := PromptSubmit(entries, service, typed).value;
    assert after == PromptWrites(entries, service, Text.Trim(typed), UndefinedText);
  }

  /** On a fresh browser, after the email prompt, the email page's "Base URL" line shows
      "undefined" rather than the default "http://localhost:3000". */
  lemma UndefinedUrlWitness()
    ensures var after := PromptSubmit(map[], Email, " key ");
            after.Some? && Auth.GetBaseUrl(after.value, Email) == "undefined" &&
            Auth.DefaultBaseUrl(Email) == "http://localhost:3000"
  {
    assert !Text.IsWhitespace(" key "[1]);
    PromptStoresUndefinedUrl(map[], Email, " key ");
  }

  /** The evidently intended handler for a prompt that asks for the key only: write the key and
      leave the URL entry alone. */
  function PromptSubmitCorrected(entries: map<string, string>, service: Service, typed: string)
    : (r: Option<map<string, string>>)
    ensures r.None? <==> Text.Trim(typed) == ""
  {
    var apiKey := Text.Trim(typed);
    if apiKey == "" then None else Some(entries[Auth.KeyEntry(service) := apiKey])
  }

  /** Corrected, `getBaseUrl` keeps the stored URL, or the default on a fresh browser, and the
      configuration `useApiClient` would build has it with the trimmed key. */
  lemma CorrectedPromptKeepsBaseUrl(entries: map<string, string>, service: Service, typed: string)
    requires Text.Trim(typed) != ""
    ensures PromptSubmitCorrected(entries, service, typed).Some?
    ensures var after := PromptSubmitCorrected(entries, service, typed).value;
            Auth.GetApiKey(after, service) == Some(Text.Trim(typed)) &&
            Auth.GetBaseUrl(after, service) == Auth.GetBaseUrl(entries, service) &&
            Api.UseApiClient(after, service) == Some(Api.ApiConfig(Auth.GetBaseUrl(entries, service), Text.Trim(typed)))
    ensures entries == map[] ==>
              Auth.GetBaseUrl(PromptSubmitCorrected(entries, service, typed).value, service) == Auth.DefaultBaseUrl(service)
  {
    var after := PromptSubmitCorrected(entries, service, typed).value;
    Auth.EntriesDistinct(service, service);
    assert BrowserStorage.Lookup(after, Auth.UrlEntry(service)) == BrowserStorage.Lookup(entries, Auth.UrlEntry(service));
  }

  /** The storage after `handleLogout` as written: both per-service entries removed. */
  function LogoutWrites(entries: map<string, string>, service: Service): (r: map<string, string>)
    ensures Auth.GetApiKey(r, service).None?
    ensures BrowserStorage.Lookup(r, StorageKey) == BrowserStorage.Lookup(entries, StorageKey)
  {
    Auth.AllEntriesDistinct();
    entries - {Auth.KeyEntry(service), Auth.UrlEntry(service)}
  }

  /** Logging out never signs a page out: the provider's record is untouched. */
  lemma LogoutNeverSignsOut(entries: map<string, string>, parse: string -> Option<StoredKeys>, service: Service)
    ensures SignedIn(LogoutWrites(entries, service), parse, service) == SignedIn(entries, parse, service)
    ensures Api.UseApiClient(LogoutWrites(entries, service), service).None?
  {
    var after := LogoutWrites(entries, service);
    assert BrowserStorage.Lookup(after, StorageKey) == BrowserStorage.Lookup(entries, StorageKey);
  }

  // ---------------------------------------------------------------------------------------------
  // The evidently intended flow: the prompt also records the key in the provider's record, and
  // logout also clears it there.

  /** The provider's record after a reload. */
  function StoredRecord(entries: map<string, string>, parse: string -> Option<StoredKeys>): ApiKeys {
    LoadKeys(BrowserStorage.Lookup(entries, StorageKey), parse)
  }

  function PromptWritesCorrected(entries: map<string, string>, service: Service, apiKey: string, baseUrl: string,
                                 encode: ApiKeys -> string, parse: string -> Option<StoredKeys>)
    : (r: map<string, string>)
    ensures Auth.GetApiKey(r, service) == Some(apiKey)
    ensures baseUrl != "" ==> Auth.GetBaseUrl(r, service) == baseUrl
    ensures BrowserStorage.Lookup(r, StorageKey) ==
              Some(encode(WithKey(StoredRecord(entries, parse), service, apiKey)))
  {
    Auth.AllEntriesDistinct();
    PromptWrites(entries, service, apiKey, baseUrl)
      [StorageKey := encode(WithKey(StoredRecord(entries, parse), service, apiKey))]
  }

  /** With the correction a non-empty key signs the page in, the other services keep their
      state, and the configuration `useApiClient` would build (a hook nothing calls) has the key
      and URL entered. */
  lemma CorrectedPromptSignsIn(entries: map<string, string>, service: Service, apiKey: string, baseUrl: string,
                               encode: ApiKeys -> string, parse: string -> Option<StoredKeys>)
    requires Faithful(encode, parse, WithKey(StoredRecord(entries, parse), service, apiKey))
    ensures var after := PromptWritesCorrected(entries, service, apiKey, baseUrl, encode, parse);
            (SignedIn(after, parse, service) <==> apiKey != "") &&
            (forall s: Service :: s != service ==> SignedIn(after, parse, s) == SignedIn(entries, parse, s)) &&
            (apiKey != "" && baseUrl != "" ==> Api.UseApiClient(after, service) == Some(Api.ApiConfig(baseUrl, apiKey)))
  {
    var updated := WithKey(StoredRecord(entries, parse), service, apiKey);
    var after := PromptWritesCorrected(entries, service, apiKey, baseUrl, encode, parse);
    assert BrowserStorage.Lookup(after, StorageKey) == Some(encode(updated));
    assert StoredRecord(after, parse) == updated;
  }

  function LogoutWritesCorrected(entries: map<string, string>, service: Service,
                                 encode: ApiKeys -> string, parse: string -> Option<StoredKeys>)
    : (r: map<string, string>)
    ensures Auth.GetApiKey(r, service).None?
    ensures BrowserStorage.Lookup(r, StorageKey) == Some(encode(WithKey(StoredRecord(entries, parse), service, "")))
  {
    Auth.AllEntriesDistinct();
    LogoutWrites(entries, service)[StorageKey := encode(WithKey(StoredRecord(entries, parse), service, ""))]
  }

  /** With the correction logout signs the page out and leaves the other services signed in as
      they were. */
  lemma CorrectedLogoutSignsOut(entries: map<string, string>, service: Service,
                                encode: ApiKeys -> string, parse: string -> Option<StoredKeys>)
    requires Faithful(encode, parse, WithKey(StoredRecord(entries, parse), service, ""))
    ensures var after := LogoutWritesCorrected(entries, service, encode, parse);
            !SignedIn(after, parse, service) &&
            (forall s: Service :: s != service ==> SignedIn(after, parse, s) == SignedIn(entries, parse, s)) &&
            Api.UseApiClient(after, service).None?
  {
    var updated := WithKey(StoredRecord(entries, parse), service, "");
    var after := LogoutWritesCorrected(entries, service, encode, parse);
    assert StoredRecord(after, parse) == updated;
  }
}
