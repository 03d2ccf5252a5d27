/** The API-key provider: one record with a key per back-end service, kept in state and
    mirrored under a single storage entry as JSON. */
module ApiKeyContext {
  import opened Common
  import BrowserStorage

  datatype Service = Kyc | Email | Bank

  /** `Record<ApiKeyKey, string>`. */
  datatype ApiKeys = ApiKeys(kyc: string, email: string, bank: string) {
    function Get(service: Service): string {
      match service
      case Kyc => kyc
      case Email => email
      case Bank => bank
    }
  }

  const StorageKey: string := "admin_api_keys"
  const NoKeys: ApiKeys := ApiKeys("", "", "")

  /** `{ ...prev, [key]: value }`: the named service gets the value, the others keep theirs. */
  function WithKey(keys: ApiKeys, service: Service, value: string): (r: ApiKeys)
    ensures r.Get(service) == value
    ensures forall other: Service :: other != service ==> r.Get(other) == keys.Get(other)
  {
    match service
    case Kyc => keys.(kyc := value)
    case Email => keys.(email := value)
    case Bank => keys.(bank := value)
  }

  /** The fields of the object `JSON.parse` returns; None for a field that is missing, null or
      otherwise falsy. */
  datatype StoredKeys = StoredKeys(kyc: Option<string>, email: Option<string>, bank: Option<string>)

  /** What parsing the JSON of a record gives back. */
  function AsStored(keys: ApiKeys): StoredKeys {
    StoredKeys(Some(keys.kyc), Some(keys.email), Some(keys.bank))
  }

  /** `loadApiKeysFromStorage` on the stored value: `parse` is `JSON.parse` (None when it throws,
      or when the value parsed is null). An absent or empty entry and a parse failure give the
      empty record. */
  function LoadKeys(stored: Option<string>, parse: string -> Option<StoredKeys>): (r: ApiKeys)
    ensures !Truthy(stored) ==> r == NoKeys
    ensures Truthy(stored) && parse(stored.value).None? ==> r == NoKeys
    ensures Truthy(stored) && parse(stored.value).Some? ==>
              var p := parse(stored.value).value;
              r.kyc == OrElse(p.kyc, "") && r.email == OrElse(p.email, "") && r.bank == OrElse(p.bank, "")
  {
    if !Truthy(stored) then NoKeys
    else
      var parsed := parse(stored.value);
      if parsed.None? then NoKeys
      else ApiKeys(OrElse(parsed.value.kyc, ""), OrElse(parsed.value.email, ""), OrElse(parsed.value.bank, ""))
  }

  /** `JSON.stringify` and `JSON.parse` agree on `keys`. */
  predicate Faithful(encode: ApiKeys -> string, parse: string -> Option<StoredKeys>, keys: ApiKeys) {
    encode(keys) != "" && parse(encode(keys)) == Some(AsStored(keys))
  }

  /** A saved record loads back unchanged. */
  lemma LoadRestoresSaved(entries: map<string, string>, keys: ApiKeys, encode: ApiKeys -> string,
                          parse: string -> Option<StoredKeys>)
    requires Faithful(encode, parse, keys)
    ensures LoadKeys(BrowserStorage.Lookup(entries[StorageKey := encode(keys)], StorageKey), parse) == keys
  {
    var stored := BrowserStorage.Lookup(entries[StorageKey := encode(keys)], StorageKey);
    assert stored == Some(encode(keys));
  }

  /** Without the entry, every service reads as unauthenticated. */
  lemma LoadWithoutEntry(entries: map<string, string>, parse: string -> Option<StoredKeys>)
    requires StorageKey !in entries
    ensures forall s: Service :: LoadKeys(BrowserStorage.Lookup(entries, StorageKey), parse).Get(s) == ""
  {
  }

  /** `useServiceAuth(key).authenticated`: `!!apiKey[key]`. */
  predicate Authenticated(keys: ApiKeys, service: Service) {
    keys.Get(service) != ""
  }

  class ApiKeyProvider {
    const storage: BrowserStorage.LocalStorage
    /** `JSON.stringify` on records and `JSON.parse`. */
    const encode: ApiKeys -> string
    const parse: string -> Option<StoredKeys>
    var apiKey: ApiKeys

    /** Mount: the state is initialised from storage (the mount effect loads the same value
        again). */
    constructor (storage: BrowserStorage.LocalStorage, encode: ApiKeys -> string,
                 parse: string -> Option<StoredKeys>)
      ensures this.storage == storage && this.encode == encode && this.parse == parse
      ensures apiKey == LoadKeys(BrowserStorage.Lookup(storage.entries, StorageKey), parse)
    {
      this.storage := storage;
      this.encode := encode;
      this.parse := parse;
      apiKey := LoadKeys(storage.GetItem(StorageKey), parse);
    }

    /** `setApiKey(key, value)`: the one service changes and the record is saved; a failing
        write is swallowed. */
    method SetApiKey(service: Service, value: string)
      modifies this, storage
      ensures apiKey == WithKey(old(apiKey), service, value)
      ensures storage.writable == old(storage.writable)
      ensures storage.entries ==
                if storage.writable then old(storage.entries)[StorageKey := encode(apiKey)]
                else old(storage.entries)
      ensures storage.writable && Faithful(encode, parse, apiKey) ==>
                LoadKeys(BrowserStorage.Lookup(storage.entries, StorageKey), parse) == apiKey
    {
      apiKey := WithKey(apiKey, service, value);
      var _ := storage.SetItem(StorageKey, encode(apiKey));
      if storage.writable && Faithful(encode, parse, apiKey) {
        LoadRestoresSaved(old(storage.entries), apiKey, encode, parse);
      }
    }

    /** `clearApiKey()`: every key becomes "" and the entry is removed; a failing removal is
        swallowed. */
    method ClearApiKey()
      modifies this, storage
      ensures apiKey == NoKeys
      ensures storage.writable == old(storage.writable)
      ensures storage.entries ==
                if storage.writable then old(storage.entries) - {StorageKey} else old(storage.entries)
      ensures storage.writable ==> LoadKeys(BrowserStorage.Lookup(storage.entries, StorageKey), parse) == NoKeys
    {
      apiKey := NoKeys;
      var _ := storage.RemoveItem(StorageKey);
    }
  }
}
