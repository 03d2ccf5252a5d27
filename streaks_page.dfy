/** The streak submissions list page: the filters it derives from its inputs, the client-side
    date window on `submittedAt`, the approved-card grid and the approve/reject dialog. */
module StreaksPage {
  import opened Common
  import opened Foreign
  import opened Entities
  import opened StreakReview
  import DateWindow
  import StreakDetailPage
  import Subgraph
  import UseStreakSubmissions

  /** The `filters` object, built by conditional assignments. The user-address input is an
      argument only to show that it is never used. */
  method Filters(statusFilter: string, userFilter: string, startDate: string, endDate: string,
                 toNumber: string -> JsNumber)
    returns (f: StreakSubmissionFilters)
    ensures f.status.Some? <==> statusFilter != "all"
    ensures f.status.Some? ==> f.status.value == toNumber(statusFilter)
    ensures f.user.None?
    ensures f.startDate == (if startDate != "" then Some(startDate) else None)
    ensures f.endDate == (if endDate != "" then Some(endDate) else None)
  {
    f := StreakSubmissionFilters(None, None, None, None);
    if statusFilter != "all" {
      f := f.(status := Some(toNumber(statusFilter)));
    }
    if startDate != "" {
      f := f.(startDate := Some(startDate));
    }
    if endDate != "" {
      f := f.(endDate := Some(endDate));
    }
  }

  /** The variables of one page of the list as the page requests it: whatever the user-address
      input holds, the subgraph is never filtered by user, and it is filtered at all only by a
      status selection. The date bounds never reach the subgraph. */
  method PageVariables(statusFilter: string, userFilter: string, startDate: string, endDate: string,
                       toNumber: string -> JsNumber, pageParam: nat, pageSize: nat)
    returns (v: Subgraph.QueryVariables)
    ensures v.first == pageSize && v.skip == pageParam && v.orderBy == "submittedAt"
    ensures v.where.Some? <==> statusFilter != "all"
    ensures v.where.Some? ==> v.where.value.Keys == {"status"}
    ensures v.where.Some? ==> v.where.value["status"] == Subgraph.NumberValue(toNumber(statusFilter))
  {
    var f := Filters(statusFilter, userFilter, startDate, endDate, toNumber);
    v := Subgraph.StreakSubmissionsVariables(f, Some(UseStreakSubmissions.PageRequest(pageParam, pageSize)));
  }

  function SubmittedAt(toNumber: string -> JsNumber): StreakSubmission -> JsNumber {
    (s: StreakSubmission) => toNumber(s.submittedAt)
  }

  /** `filteredQuery.data.pages`. */
  function Windowed(data: Option<seq<seq<StreakSubmission>>>, startDate: string, endDate: string,
                    startSeconds: JsNumber, endSeconds: JsNumber, toNumber: string -> JsNumber)
    : Option<seq<seq<StreakSubmission>>>
  {
    DateWindow.WindowPages(data, startDate, endDate, startSeconds, endSeconds, SubmittedAt(toNumber))
  }

  /** Row actions (Approve and Reject) are shown for pending submissions only. */
  predicate ShowsRowActions(row: StreakSubmission) {
    row.status == 0
  }

  /** The list and the detail page offer review under the same condition. */
  lemma RowActionsMatchDetailPage(row: StreakSubmission, inCart: bool)
    ensures ShowsRowActions(row) == StreakDetailPage.ActionsFor(row.status, inCart).approveAndReject
  {
  }

  predicate IsApproved(s: StreakSubmission) { s.status == 1 }

  /** The card grid shown under the "1" filter: None while loading, otherwise the approved
      submissions of all windowed pages, in order ("No approved streaks found" when empty). */
  function ApprovedCards(pages: Option<seq<seq<StreakSubmission>>>): (r: Option<seq<StreakSubmission>>)
    ensures r.None? <==> pages.None?
    ensures r.Some? ==> forall s :: s in r.value ==> IsApproved(s)
  {
    if pages.None? then None else Some(Filter(Flatten(pages.value), IsApproved))
  }

  /** With date bounds, a submission is on a card exactly when it was loaded, is approved, and
      its `submittedAt` lies in the window. */
  lemma CardsExact(pages: seq<seq<StreakSubmission>>, startDate: string, endDate: string,
                   startSeconds: JsNumber, endSeconds: JsNumber, toNumber: string -> JsNumber,
                   s: StreakSubmission)
    requires startDate != "" || endDate != ""
    ensures var cards := ApprovedCards(Windowed(Some(pages), startDate, endDate, startSeconds, endSeconds, toNumber));
            cards.Some? &&
            (s in cards.value <==>
               s in Flatten(pages) && IsApproved(s) &&
               DateWindow.InWindow(toNumber(s.submittedAt), DateWindow.WindowStart(startDate, startSeconds),
                                   DateWindow.WindowEnd(endDate, endSeconds)))
  {
    DateWindow.WindowedRows(pages, startDate, endDate, startSeconds, endSeconds, SubmittedAt(toNumber));
  }

  /** The dialog state of the list page. */
  class StreaksPage {
    const parseBigInt: string -> Option<int>
    const parseEther: string -> Option<int>
    var selectedSubmission: Option<StreakSubmission>
    var dialogOpen: bool
    var dialogType: StreakDetailPage.DialogType
    var amount: string
    var reason: string

    constructor (parseBigInt: string -> Option<int>, parseEther: string -> Option<int>)
      ensures this.parseBigInt == parseBigInt && this.parseEther == parseEther
      ensures selectedSubmission.None? && !dialogOpen && amount == "" && reason == ""
      ensures dialogType == StreakDetailPage.ApproveDialog
    {
      this.parseBigInt := parseBigInt;
      this.parseEther := parseEther;
      selectedSubmission := None;
      dialogOpen := false;
      dialogType := StreakDetailPage.ApproveDialog;
      amount := "";
      reason := "";
    }

    /** `handleApproveClick` / `handleRejectClick`. */
    method OpenDialog(submission: StreakSubmission, kind: StreakDetailPage.DialogType)
      modifies this`selectedSubmission, this`dialogType, this`dialogOpen
      ensures selectedSubmission == Some(submission) && dialogType == kind && dialogOpen
    {
      selectedSubmission := Some(submission);
      dialogType := kind;
      dialogOpen := true;
    }

    /** `handleApprove`: nothing without a selection or an amount; otherwise one id and one
        amount in wei are sent and the dialog state is cleared. */
    method Approve() returns (request: Option<ApproveRequest>)
      modifies this`dialogOpen, this`amount, this`selectedSubmission
      ensures old(selectedSubmission).None? || old(amount) == "" ==> request.None?
      ensures old(selectedSubmission).Some? && old(amount) != "" ==>
                request == ApproveOne(old(selectedSubmission).value.submissionId, old(amount), parseBigInt, parseEther)
      ensures request.Some? ==> !dialogOpen && amount == "" && selectedSubmission.None?
      ensures request.None? ==>
                dialogOpen == old(dialogOpen) && amount == old(amount) && selectedSubmission == old(selectedSubmission)
    {
      if selectedSubmission.None? || amount == "" {
        return None;
      }
      request := ApproveOne(selectedSubmission.value.submissionId, amount, parseBigInt, parseEther);
      if request.Some? {
        dialogOpen := false;
        amount := "";
        selectedSubmission := None;
      }
    }

    /** `handleReject`: nothing without a selection or a reason; the reason is sent untrimmed. */
    method Reject() returns (request: Option<RejectRequest>)
      modifies this`dialogOpen, this`reason, this`selectedSubmission
      ensures old(selectedSubmission).None? || old(reason) == "" ==> request.None?
      ensures old(selectedSubmission).Some? && old(reason) != "" ==>
                request == RejectOne(old(selectedSubmission).value.submissionId, old(reason), parseBigInt)
      ensures request.Some? ==> !dialogOpen && reason == "" && selectedSubmission.None?
      ensures request.None? ==>
                dialogOpen == old(dialogOpen) && reason == old(reason) && selectedSubmission == old(selectedSubmission)
    {
      if selectedSubmission.None? || reason == "" {
        return None;
      }
      request := RejectOne(selectedSubmission.value.submissionId, reason, parseBigInt);
      if request.Some? {
        dialogOpen := false;
        reason := "";
        selectedSubmission := None;
      }
    }
  }
}
