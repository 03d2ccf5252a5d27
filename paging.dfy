/** The offset-pagination rule that the three infinite list queries share: pages are requested
    `first = PAGE_SIZE` rows at a time, the first at skip 0, and a further page exists only when
    the last one came back full. PAGE_SIZE is a parameter. */
module InfinitePaging {
  import opened Common

  const InitialPageParam: nat := 0

  /** `getNextPageParam(lastPage, allPages)`. */
  function NextPageParam<T>(lastPage: seq<T>, allPages: seq<seq<T>>, pageSize: nat): (r: Option<nat>)
    ensures r.None? <==> |lastPage| < pageSize
    ensures r.Some? ==> r.value == |allPages| * pageSize
  {
    if |lastPage| < pageSize then None else Some(|allPages| * pageSize)
  }

  /** The pages a query can have loaded: every page but the last came back full (otherwise no
      further page would have been requested), and no page is longer than `first`. */
  ghost predicate Loaded<T>(pages: seq<seq<T>>, pageSize: nat) {
    pages != [] &&
    (forall i :: 0 <= i < |pages| ==> |pages[i]| <= pageSize) &&
    (forall i :: 0 <= i < |pages| - 1 ==> |pages[i]| == pageSize)
  }

  /** Full pages hold `pageSize` rows each. */
  lemma {:induction false} FullPagesRowCount<T>(pages: seq<seq<T>>, pageSize: nat)
    requires forall i :: 0 <= i < |pages| ==> |pages[i]| == pageSize
    ensures |Flatten(pages)| == |pages| * pageSize
  {
    if pages != [] {
      FullPagesRowCount(pages[1..], pageSize);
    }
  }

  /** The requested windows are consecutive and do not overlap: the next skip is exactly the
      number of rows already loaded. */
  lemma NextSkipIsLoadedRows<T>(pages: seq<seq<T>>, pageSize: nat)
    requires Loaded(pages, pageSize)
    ensures var next := NextPageParam(pages[|pages| - 1], pages, pageSize);
            next.Some? ==> next.value == |Flatten(pages)|
  {
    if |pages[|pages| - 1]| >= pageSize {
      FullPagesRowCount(pages, pageSize);
    }
  }

  /** Loading the page at the next skip keeps the loaded pages consistent. */
  lemma NextPageKeepsLoaded<T>(pages: seq<seq<T>>, page: seq<T>, pageSize: nat)
    requires Loaded(pages, pageSize)
    requires NextPageParam(pages[|pages| - 1], pages, pageSize).Some?
    requires |page| <= pageSize
    ensures Loaded(pages + [page], pageSize)
  {
  }
}
