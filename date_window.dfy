/** The client-side date window that the Streaks and Cleanups pages apply to the pages of an
    infinite query. The day bounds (`Math.floor(new Date(…).getTime() / 1000)`) are computed
    outside the model and passed in as JavaScript numbers; a missing start is 0 and a missing
    end is Infinity. */
module DateWindow {
  import opened Common
  import opened Foreign

  function WindowStart(startDate: string, startSeconds: JsNumber): (n: JsNumber)
    ensures startDate == "" ==> n == Finite(0.0)
    ensures startDate != "" ==> n == startSeconds
  {
    if startDate != "" then startSeconds else Finite(0.0)
  }

  function WindowEnd(endDate: string, endSeconds: JsNumber): (n: JsNumber)
    ensures endDate == "" ==> n == Infinite(false)
    ensures endDate != "" ==> n == endSeconds
  {
    if endDate != "" then endSeconds else Infinite(false)
  }

  /** `stamp >= start && stamp <= end`. */
  predicate InWindow(stamp: JsNumber, start: JsNumber, end: JsNumber) {
    AtLeast(stamp, start) && AtLeast(end, stamp)
  }

  function Keeps<T>(stamp: T -> JsNumber, start: JsNumber, end: JsNumber): T -> bool {
    (t: T) => InWindow(stamp(t), start, end)
  }

  /** The windowed query data: unchanged without bounds; otherwise each loaded page keeps the
      rows whose timestamp lies in the window (no data stays no data). */
  function WindowPages<T>(data: Option<seq<seq<T>>>, startDate: string, endDate: string,
                          startSeconds: JsNumber, endSeconds: JsNumber, stamp: T -> JsNumber)
    : (r: Option<seq<seq<T>>>)
    ensures startDate == "" && endDate == "" ==> r == data
    ensures data.None? ==> r.None?
    ensures (startDate != "" || endDate != "") && data.Some? ==>
              var keep := Keeps(stamp, WindowStart(startDate, startSeconds), WindowEnd(endDate, endSeconds));
              r.Some? && |r.value| == |data.value| &&
              forall i :: 0 <= i < |r.value| ==> r.value[i] == Filter(data.value[i], keep)
  {
    if startDate == "" && endDate == "" then data
    else if data.None? then None
    else
      var keep := Keeps(stamp, WindowStart(startDate, startSeconds), WindowEnd(endDate, endSeconds));
      Some(MapSeq(data.value, (page: seq<T>) => Filter(page, keep)))
  }

  /** With bounds, the rows shown are exactly the loaded rows inside the window, in load order:
      windowing page by page and then flattening is windowing the flattened rows. */
  lemma WindowedRows<T>(pages: seq<seq<T>>, startDate: string, endDate: string,
                        startSeconds: JsNumber, endSeconds: JsNumber, stamp: T -> JsNumber)
    requires startDate != "" || endDate != ""
    ensures var keep := Keeps(stamp, WindowStart(startDate, startSeconds), WindowEnd(endDate, endSeconds));
            var r := WindowPages(Some(pages), startDate, endDate, startSeconds, endSeconds, stamp);
            Flatten(r.value) == Filter(Flatten(pages), keep)
  {
    var keep := Keeps(stamp, WindowStart(startDate, startSeconds), WindowEnd(endDate, endSeconds));
    FlattenFilterPages(pages, keep);
    var r := WindowPages(Some(pages), startDate, endDate, startSeconds, endSeconds, stamp);
    assert r.value == MapSeq(pages, (page: seq<T>) => Filter(page, keep));
  }

  /** Without an end date every row at or after the start stays, however late: the end is
      Infinity. */
  lemma OpenEndKeepsLateRows(stamp: JsNumber, startDate: string, startSeconds: JsNumber)
    requires AtLeast(stamp, WindowStart(startDate, startSeconds))
    ensures InWindow(stamp, WindowStart(startDate, startSeconds), WindowEnd("", Finite(0.0)))
  {
  }

  /** A row whose timestamp is not a number (NaN) is dropped by every window. */
  lemma NaNNeverInWindow(start: JsNumber, end: JsNumber)
    ensures !InWindow(NaN, start, end)
  {
  }
}
