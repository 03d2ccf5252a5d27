/** The browser's `window.localStorage`: a mutable map from keys to string values. */
module BrowserStorage {
  import opened Common

  /** `localStorage.getItem(key)` on a snapshot of the entries: null when the key is absent. */
  function Lookup(entries: map<string, string>, key: string): (r: Option<string>)
    ensures r.Some? <==> key in entries
    ensures r.Some? ==> r.value == entries[key]
  {
    if key in entries then Some(entries[key]) else None
  }

  class LocalStorage {
    var entries: map<string, string>
    /** False when the browser refuses writes (storage disabled or over quota); `setItem` and
        `removeItem` then throw and leave the entries as they were. */
    var writable: bool

    constructor (entries: map<string, string>, writable: bool)
      ensures this.entries == entries && this.writable == writable
    {
      this.entries := entries;
      this.writable := writable;
    }

    function GetItem(key: string): (r: Option<string>)
      reads this
      ensures r == Lookup(entries, key)
    {
      Lookup(entries, key)
    }

    /** `localStorage.setItem(key, value)`; `ok` is false when it threw. */
    method SetItem(key: string, value: string) returns (ok: bool)
      modifies this`entries
      ensures ok == writable
      ensures entries == if ok then old(entries)[key := value] else old(entries)
    {
      ok := writable;
      if ok {
        entries := entries[key := value];
      }
    }

    /** `localStorage.removeItem(key)`; `ok` is false when it threw. */
    method RemoveItem(key: string) returns (ok: bool)
      modifies this`entries
      ensures ok == writable
      ensures entries == if ok then old(entries) - {key} else old(entries)
    {
      ok := writable;
      if ok {
        entries := entries - {key};
      }
    }
  }
}
