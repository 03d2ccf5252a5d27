/** The cleanups list page: its filters and the client-side date window on `createdAt`. */
module CleanupsPage {
  import opened Common
  import opened Foreign
  import opened Entities
  import DateWindow
  import Subgraph
  import UseCleanups

  /** The `filters` object, built by conditional assignments. */
  method Filters(statusFilter: string, organizerFilter: string, publishedFilter: string,
                 startDate: string, endDate: string, toNumber: string -> JsNumber)
    returns (f: CleanupFilters)
    ensures f.status.Some? <==> statusFilter != "all"
    ensures f.status.Some? ==> f.status.value == toNumber(statusFilter)
    ensures f.published.Some? <==> publishedFilter != "all"
    ensures f.published.Some? ==> (f.published.value <==> publishedFilter == "true")
    ensures f.organizer == (if organizerFilter != "" then Some(organizerFilter) else None)
    ensures f.startDate == (if startDate != "" then Some(startDate) else None)
    ensures f.endDate == (if endDate != "" then Some(endDate) else None)
  {
    f := CleanupFilters(None, None, None, None, None);
    if statusFilter != "all" {
      f := f.(status := Some(toNumber(statusFilter)));
    }
    if publishedFilter != "all" {
      f := f.(published := Some(publishedFilter == "true"));
    }
    if organizerFilter != "" {
      f := f.(organizer := Some(organizerFilter));
    }
    if startDate != "" {
      f := f.(startDate := Some(startDate));
    }
    if endDate != "" {
      f := f.(endDate := Some(endDate));
    }
  }

  /** The variables of one page as the page requests it: "false" in the published select reaches
      the subgraph as `published: false`, and the organizer is normalised. */
  method PageVariables(statusFilter: string, organizerFilter: string, publishedFilter: string,
                       startDate: string, endDate: string, toNumber: string -> JsNumber,
                       pageParam: nat, pageSize: nat)
    returns (v: Subgraph.QueryVariables)
    ensures v.first == pageSize && v.skip == pageParam && v.orderBy == "createdAt"
    ensures v.where.Some? <==>
              statusFilter != "all" || organizerFilter != "" || publishedFilter != "all"
    ensures v.where.Some? ==>
              var w := v.where.value;
              w.Keys <= {"status", "organizer", "published"} &&
              ("status" in w <==> statusFilter != "all") &&
              (statusFilter != "all" ==> w["status"] == Subgraph.NumberValue(toNumber(statusFilter))) &&
              ("published" in w <==> publishedFilter != "all") &&
              (publishedFilter != "all" ==> w["published"] == Subgraph.BoolValue(publishedFilter == "true")) &&
              ("organizer" in w <==> organizerFilter != "") &&
              (organizerFilter != "" ==> w["organizer"] == Subgraph.StringValue(Subgraph.NormalizeAddress(organizerFilter)))
  {
    var f := Filters(statusFilter, organizerFilter, publishedFilter, startDate, endDate, toNumber);
    v := Subgraph.CleanupsVariables(f, Some(UseCleanups.PageRequest(pageParam, pageSize)));
  }

  function CreatedAt(toNumber: string -> JsNumber): Cleanup -> JsNumber {
    (c: Cleanup) => toNumber(c.createdAt)
  }

  /** `filteredQuery.data.pages`. */
  function Windowed(data: Option<seq<seq<Cleanup>>>, startDate: string, endDate: string,
                    startSeconds: JsNumber, endSeconds: JsNumber, toNumber: string -> JsNumber)
    : Option<seq<seq<Cleanup>>>
  {
    DateWindow.WindowPages(data, startDate, endDate, startSeconds, endSeconds, CreatedAt(toNumber))
  }

  /** The window is inclusive at both ends: a cleanup created exactly at a bound is kept. */
  lemma BoundsInclusive(pages: seq<seq<Cleanup>>, startDate: string, endDate: string,
                        startSeconds: JsNumber, endSeconds: JsNumber, toNumber: string -> JsNumber,
                        i: nat, j: nat)
    requires startDate != "" && endDate != ""
    requires i < |pages| && j < |pages[i]|
    requires toNumber(pages[i][j].createdAt) == startSeconds || toNumber(pages[i][j].createdAt) == endSeconds
    requires AtLeast(endSeconds, startSeconds) && startSeconds.Finite? && endSeconds.Finite?
    ensures var w := Windowed(Some(pages), startDate, endDate, startSeconds, endSeconds, toNumber);
            w.Some? && pages[i][j] in w.value[i]
  {
  }
}
