/** The email service status page: the key/value search, its page slicing, and logout. The
    status object's entries arrive in `Object.entries` order with each value already in its
    `String(value)` form. */
module EmailPage {
  import opened Common
  import opened Text
  import BrowserStorage

  datatype StatusEntry = StatusEntry(key: string, value: string)

  predicate EntryMatches(searchQuery: string, e: StatusEntry) {
    searchQuery == "" ||
    Includes(Lower(e.key), Lower(searchQuery)) || Includes(Lower(e.value), Lower(searchQuery))
  }

  function Matches(searchQuery: string): StatusEntry -> bool {
    (e: StatusEntry) => EntryMatches(searchQuery, e)
  }

  /** `filteredData`: no status gives no entries. */
  function Filtered(status: Option<seq<StatusEntry>>, searchQuery: string): (r: seq<StatusEntry>)
    ensures status.None? ==> r == []
    ensures status.Some? ==> r == Filter(status.value, Matches(searchQuery))
  {
    if status.None? then [] else Filter(status.value, Matches(searchQuery))
  }

  /** An empty search keeps every entry in order. */
  lemma EmptySearchKeepsAll(entries: seq<StatusEntry>)
    ensures Filtered(Some(entries), "") == entries
  {
    FilterKeepsAll(entries, Matches(""));
  }

  /** The search is case-insensitive: an entry is kept iff its lower-cased key or value contains
      the lower-cased query. */
  lemma SearchIgnoresCase(entries: seq<StatusEntry>, q: string, e: StatusEntry)
    requires q != ""
    ensures e in Filtered(Some(entries), q) <==>
              e in entries && (Includes(Lower(e.key), Lower(q)) || Includes(Lower(e.value), Lower(q)))
    ensures Filtered(Some(entries), q) == Filtered(Some(entries), Lower(q))
  {
    LowerIdempotent(q);
    FilterCongruent(entries, Matches(q), Matches(Lower(q)));
  }

  /** `Math.ceil(totalItems / pageSize)`. */
  function TotalPages(totalItems: nat, pageSize: nat): (n: nat)
    requires pageSize > 0
    ensures (n - 1) * pageSize < totalItems <= n * pageSize || (n == 0 && totalItems == 0)
  {
    (totalItems + pageSize - 1) / pageSize
  }

  /** `filteredData.slice((currentPage - 1) * pageSize, currentPage * pageSize)`. */
  function PageSlice(filtered: seq<StatusEntry>, currentPage: int, pageSize: int): seq<StatusEntry> {
    JsSlice(filtered, (currentPage - 1) * pageSize, currentPage * pageSize)
  }

  /** A page on the valid range holds at most `pageSize` entries, taken from position
      `(currentPage - 1) * pageSize` on; and every page of 1..TotalPages holds at least one. */
  lemma PageSliceBounds(filtered: seq<StatusEntry>, currentPage: int, pageSize: int)
    requires currentPage >= 1 && pageSize >= 1
    ensures |PageSlice(filtered, currentPage, pageSize)| <= pageSize
    ensures var start := (currentPage - 1) * pageSize;
            forall i :: 0 <= i < |PageSlice(filtered, currentPage, pageSize)| ==>
              PageSlice(filtered, currentPage, pageSize)[i] == filtered[start + i]
    ensures currentPage <= TotalPages(|filtered|, pageSize) ==> PageSlice(filtered, currentPage, pageSize) != []
  {
    var start := (currentPage - 1) * pageSize;
    assert start >= 0 && currentPage * pageSize == start + pageSize;
  }

  /** The pagination control is rendered only for more than one page. */
  predicate ShowsPagination(totalPages: nat) { totalPages > 1 }

  /** The control is hidden exactly when every filtered entry fits on one page. */
  lemma PaginationShownIffOverflow(filtered: seq<StatusEntry>, pageSize: nat)
    requires pageSize > 0
    ensures ShowsPagination(TotalPages(|filtered|, pageSize)) <==> |filtered| > pageSize
  {
    var n := TotalPages(|filtered|, pageSize);
    if n > 1 {
      assert (n - 1) * pageSize >= pageSize by { MulMonotone(n - 1, 1, pageSize); }
    } else if n == 1 {
      assert |filtered| <= pageSize;
    }
  }

  lemma MulMonotone(a: int, b: int, c: nat)
    requires a >= b
    ensures a * c >= b * c
  {
  }

  class EmailPage {
    const storage: BrowserStorage.LocalStorage
    var searchQuery: string
    var currentPage: int
    var pageSize: int

    constructor (storage: BrowserStorage.LocalStorage)
      ensures this.storage == storage && searchQuery == "" && currentPage == 1 && pageSize == 25
    {
      this.storage := storage;
      searchQuery := "";
      currentPage := 1;
      pageSize := 25;
    }

    /** `handleLogout`: resets the search and the page and removes the email key and URL (the
        reload that follows is not modelled). */
    method Logout()
      modifies this`searchQuery, this`currentPage, storage
      ensures searchQuery == "" && currentPage == 1
      ensures storage.writable == old(storage.writable)
      ensures storage.entries ==
                if storage.writable then old(storage.entries) - {"admin_api_key_email", "admin_api_key_email_url"}
                else old(storage.entries)
    {
      searchQuery := "";
      currentPage := 1;
      var ok := storage.RemoveItem("admin_api_key_email");
      if ok {
        ok := storage.RemoveItem("admin_api_key_email_url");
      }
    }
  }
}
