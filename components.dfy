/** The infinite-scroll table: which view it renders for a query's state, and when its sentinel
    asks for the next page. */
module InfiniteScrollTable {
  import opened Common

  datatype View<T> =
    | Loading
    | Empty
    | Table(rows: seq<T>, sentinel: bool, loadingMore: bool)

  /** `data?.pages.flatMap(page => page) ?? []`. */
  function Rows<T>(data: Option<seq<seq<T>>>): (rows: seq<T>)
    ensures data.None? ==> rows == []
    ensures data.Some? ==> rows == Flatten(data.value)
  {
    if data.None? then [] else Flatten(data.value)
  }

  function Render<T>(data: Option<seq<seq<T>>>, hasNextPage: bool, isFetchingNextPage: bool,
                     isLoading: bool): (v: View<T>)
    ensures isLoading ==> v.Loading?
    ensures v.Empty? <==> !isLoading && Rows(data) == []
    ensures v.Table? ==>
              v.rows == Rows(data) && v.rows != [] &&
              (v.sentinel <==> hasNextPage) && (v.loadingMore <==> isFetchingNextPage)
  {
    var rows := Rows(data);
    if isLoading then Loading
    else if rows == [] then Empty
    else Table(rows, hasNextPage, isFetchingNextPage)
  }

  /** The observer calls `fetchNextPage` when the sentinel is rendered and intersects, a next
      page exists and none is being fetched. */
  predicate TriggersFetch<T>(view: View<T>, isIntersecting: bool, hasNextPage: bool,
                             isFetchingNextPage: bool) {
    view.Table? && view.sentinel && isIntersecting && hasNextPage && !isFetchingNextPage
  }

  /** No fetch is triggered while loading, from the empty state (it renders no sentinel), or
      while a fetch is in flight; with nothing to fetch the table shows no sentinel. */
  lemma FetchOnlyFromTable<T>(data: Option<seq<seq<T>>>, hasNextPage: bool, isFetchingNextPage: bool,
                              isLoading: bool, isIntersecting: bool)
    ensures var v := Render(data, hasNextPage, isFetchingNextPage, isLoading);
            TriggersFetch(v, isIntersecting, hasNextPage, isFetchingNextPage) ==>
              !isLoading && Rows(data) != [] && hasNextPage && !isFetchingNextPage && isIntersecting
  {
  }

  /** Every row of every loaded page is shown, and only those rows. */
  lemma RowsAreLoadedRows<T>(pages: seq<seq<T>>, x: T)
    ensures x in Rows(Some(pages)) <==> exists i :: 0 <= i < |pages| && x in pages[i]
  {
    if x in Rows(Some(pages)) {
      FlattenMember(pages, x);
    }
  }
}

/** The numbered pagination bar. */
module Pagination {

  function StartItem(currentPage: int, pageSize: int): int {
    (currentPage - 1) * pageSize + 1
  }

  function EndItem(currentPage: int, pageSize: int, totalItems: int): int {
    if currentPage * pageSize < totalItems then currentPage * pageSize else totalItems
  }

  predicate PreviousDisabled(currentPage: int) { currentPage == 1 }

  predicate NextDisabled(currentPage: int, totalPages: int) { currentPage >= totalPages }

  /** The page Previous and Next ask for. */
  function PreviousPage(currentPage: int): int { currentPage - 1 }
  function NextPage(currentPage: int): int { currentPage + 1 }

  /** `totalPages || 1`. */
  function PageLabel(totalPages: int): (n: int)
    ensures totalPages != 0 ==> n == totalPages
    ensures totalPages == 0 ==> n == 1
  {
    if totalPages == 0 then 1 else totalPages
  }

  /** The range "Showing start-end of total": the end never passes the total; on a page that
      holds items it spans between one item and a page of items; with no items it reads 1-0. */
  lemma ShowingRange(currentPage: int, pageSize: int, totalItems: int)
    ensures EndItem(currentPage, pageSize, totalItems) <= totalItems
    ensures EndItem(currentPage, pageSize, totalItems) <= currentPage * pageSize
    ensures currentPage >= 1 && pageSize >= 1 && StartItem(currentPage, pageSize) <= totalItems ==>
              1 <= EndItem(currentPage, pageSize, totalItems) - StartItem(currentPage, pageSize) + 1 <= pageSize
    ensures totalItems == 0 && currentPage == 1 && pageSize >= 0 ==>
              StartItem(currentPage, pageSize) == 1 && EndItem(currentPage, pageSize, totalItems) == 0
  {
  }

  /** Within 1..totalPages, Previous never requests a page below 1 and Next never requests a
      page past the last. */
  lemma NavigationStaysInRange(currentPage: int, totalPages: int)
    requires 1 <= currentPage
    ensures !PreviousDisabled(currentPage) ==> PreviousPage(currentPage) >= 1
    ensures !NextDisabled(currentPage, totalPages) ==> NextPage(currentPage) <= totalPages
  {
  }
}
