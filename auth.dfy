/** The per-service credential helpers: an API key stored under "admin_api_key_<service>" and a
    base URL under the same key followed by "_url", with fixed defaults for the URL. */
module Auth {
  import opened Common
  import BrowserStorage
  import opened ApiKeyContext

  function ServiceName(service: Service): (r: string)
    ensures |r| == match service case Kyc => 3 case Bank => 4 case Email => 5
  {
    match service
    case Kyc => "kyc"
    case Email => "email"
    case Bank => "bank"
  }

  const StoragePrefix: string := "admin_api_key_"

  function KeyEntry(service: Service): string {
    StoragePrefix + ServiceName(service)
  }

  function UrlEntry(service: Service): string {
    KeyEntry(service) + "_url"
  }

  /** The entry names spelled out; the pages' logout handlers remove these literals. */
  lemma EntryNames()
    ensures KeyEntry(Kyc) == "admin_api_key_kyc" && UrlEntry(Kyc) == "admin_api_key_kyc_url"
    ensures KeyEntry(Email) == "admin_api_key_email" && UrlEntry(Email) == "admin_api_key_email_url"
    ensures KeyEntry(Bank) == "admin_api_key_bank" && UrlEntry(Bank) == "admin_api_key_bank_url"
  {
  }

  /** The six entries are pairwise distinct, and none is the provider's "admin_api_keys". */
  lemma EntriesDistinct(s: Service, t: Service)
    ensures s != t ==> KeyEntry(s) != KeyEntry(t) && UrlEntry(s) != UrlEntry(t)
    ensures KeyEntry(s) != UrlEntry(t)
    ensures KeyEntry(s) != StorageKey && UrlEntry(s) != StorageKey
  {
    assert |KeyEntry(s)| == 14 + |ServiceName(s)|;
    assert |UrlEntry(t)| == 18 + |ServiceName(t)|;
  }

  lemma AllEntriesDistinct()
    ensures forall s: Service, t: Service :: s != t ==> KeyEntry(s) != KeyEntry(t) && UrlEntry(s) != UrlEntry(t)
    ensures forall s: Service, t: Service :: KeyEntry(s) != UrlEntry(t)
  {
    forall s: Service, t: Service
      ensures (s != t ==> KeyEntry(s) != KeyEntry(t) && UrlEntry(s) != UrlEntry(t)) && KeyEntry(s) != UrlEntry(t)
    {
      EntriesDistinct(s, t);
    }
  }

  /** The default base URLs. */
  function DefaultBaseUrl(service: Service): (r: string)
    ensures service == Email ==> r == "http://localhost:3000"
    ensures service != Email ==> r == "http://localhost:3002"
  {
    match service
    case Email => "http://localhost:3000"
    case Kyc => "http://localhost:3002"
    case Bank => "http://localhost:3002"
  }

  /** `getApiKey(service)` on a snapshot of the storage. */
  function GetApiKey(entries: map<string, string>, service: Service): Option<string> {
    BrowserStorage.Lookup(entries, KeyEntry(service))
  }

  /** `getBaseUrl(service)`: a stored, non-empty URL, otherwise the default; never "". */
  function GetBaseUrl(entries: map<string, string>, service: Service): (r: string)
    ensures Truthy(BrowserStorage.Lookup(entries, UrlEntry(service))) ==> r == entries[UrlEntry(service)]
    ensures !Truthy(BrowserStorage.Lookup(entries, UrlEntry(service))) ==> r == DefaultBaseUrl(service)
    ensures r != ""
  {
    OrElse(BrowserStorage.Lookup(entries, UrlEntry(service)), DefaultBaseUrl(service))
  }

  /** `setApiKey(service, key)`; `ok` is false when the write threw (the exception reaches the
      caller). */
  method SetApiKey(storage: BrowserStorage.LocalStorage, service: Service, key: string) returns (ok: bool)
    modifies storage`entries
    ensures ok == storage.writable
    ensures storage.entries == if ok then old(storage.entries)[KeyEntry(service) := key] else old(storage.entries)
    ensures ok ==> GetApiKey(storage.entries, service) == Some(key)
    ensures ok ==> forall other: Service :: other != service ==>
                     GetApiKey(storage.entries, other) == GetApiKey(old(storage.entries), other)
    ensures ok ==> forall s: Service :: GetBaseUrl(storage.entries, s) == GetBaseUrl(old(storage.entries), s)
  {
    ok := storage.SetItem(KeyEntry(service), key);
    AllEntriesDistinct();
  }

  /** `clearApiKey(service)`: only the key is removed; the "_url" entry stays. */
  method ClearApiKey(storage: BrowserStorage.LocalStorage, service: Service) returns (ok: bool)
    modifies storage`entries
    ensures ok == storage.writable
    ensures storage.entries == if ok then old(storage.entries) - {KeyEntry(service)} else old(storage.entries)
    ensures ok ==> GetApiKey(storage.entries, service).None?
    ensures ok ==> forall other: Service :: other != service ==>
                     GetApiKey(storage.entries, other) == GetApiKey(old(storage.entries), other)
    ensures ok ==> forall s: Service :: GetBaseUrl(storage.entries, s) == GetBaseUrl(old(storage.entries), s)
  {
    ok := storage.RemoveItem(KeyEntry(service));
    AllEntriesDistinct();
  }

  /** `setBaseUrl(service, url)`. */
  method SetBaseUrl(storage: BrowserStorage.LocalStorage, service: Service, url: string) returns (ok: bool)
    modifies storage`entries
    ensures ok == storage.writable
    ensures storage.entries == if ok then old(storage.entries)[UrlEntry(service) := url] else old(storage.entries)
    ensures ok && url != "" ==> GetBaseUrl(storage.entries, service) == url
    ensures ok ==> forall s: Service :: GetApiKey(storage.entries, s) == GetApiKey(old(storage.entries), s)
  {
    ok := storage.SetItem(UrlEntry(service), url);
    AllEntriesDistinct();
  }

  /** Reading back what was written: a key set is read as set, a key cleared reads as null, and
      clearing leaves the base URL as it was. */
  lemma SetThenGet(entries: map<string, string>, service: Service, key: string)
    ensures GetApiKey(entries[KeyEntry(service) := key], service) == Some(key)
    ensures GetApiKey(entries - {KeyEntry(service)}, service) == None
    ensures GetBaseUrl(entries - {KeyEntry(service)}, service) == GetBaseUrl(entries, service)
  {
    EntriesDistinct(service, service);
    assert BrowserStorage.Lookup(entries - {KeyEntry(service)}, UrlEntry(service)) ==
           BrowserStorage.Lookup(entries, UrlEntry(service));
  }
}
