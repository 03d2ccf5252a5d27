/** The KYC list page: search, status counts, the approve and reject handlers and logout. */
module KycPage {
  import opened Common
  import opened Text
  import opened UseKyc
  import BrowserStorage

  /** The table's global filter. */
  predicate SubmissionMatches(s: KycSubmission, filterValue: string) {
    var search := Lower(filterValue);
    Includes(Lower(s.address), search) || Includes(Lower(s.status), search) || Includes(Lower(s.id), search)
  }

  lemma SearchIgnoresCase(s: KycSubmission, q: string)
    ensures SubmissionMatches(s, q) == SubmissionMatches(s, Lower(q))
    ensures SubmissionMatches(s, "")
  {
    LowerIdempotent(q);
    EmptyIncluded(Lower(s.address));
  }

  predicate IsPending(s: KycSubmission) { s.status == "PENDING" }
  predicate IsVerified(s: KycSubmission) { s.status == "VERIFIED" }
  predicate IsRejected(s: KycSubmission) { s.status == "REJECTED" }

  datatype Stats = Stats(total: nat, pending: nat, verified: nat, rejected: nat)

  /** The counters compare the status exactly: "pending" is counted nowhere. */
  function SubmissionStats(submissions: seq<KycSubmission>): (s: Stats)
    ensures s.total == |submissions|
    ensures s.pending == |Filter(submissions, IsPending)|
    ensures s.verified == |Filter(submissions, IsVerified)|
    ensures s.rejected == |Filter(submissions, IsRejected)|
  {
    Stats(|submissions|, Count(submissions, IsPending), Count(submissions, IsVerified),
          Count(submissions, IsRejected))
  }

  lemma StatsBounded(submissions: seq<KycSubmission>)
    ensures var s := SubmissionStats(submissions);
            s.pending + s.verified + s.rejected <= s.total
  {
    DisjointCountsBounded(submissions, IsPending, IsVerified, IsRejected);
  }

  /** Approve and Reject are shown only for loaded details whose status is exactly "PENDING". */
  predicate ShowsActions(details: Option<KycDetails>) {
    details.Some? && details.value.status == "PENDING"
  }

  /** The id the details query is asked for: `selectedSubmission?.id || null`. */
  function DetailsId(selected: Option<KycSubmission>): (r: Option<string>)
    ensures r.Some? <==> selected.Some? && selected.value.id != ""
  {
    if selected.Some? && selected.value.id != "" then Some(selected.value.id) else None
  }

  class KycPage {
    const storage: BrowserStorage.LocalStorage
    var statusFilter: string
    var searchQuery: string
    var startDate: string
    var endDate: string
    var selectedSubmission: Option<KycSubmission>
    var showApproveModal: bool
    var showRejectModal: bool

    constructor (storage: BrowserStorage.LocalStorage)
      ensures this.storage == storage && statusFilter == "" && searchQuery == ""
      ensures startDate == "" && endDate == "" && selectedSubmission.None?
      ensures !showApproveModal && !showRejectModal
    {
      this.storage := storage;
      statusFilter := "";
      searchQuery := "";
      startDate := "";
      endDate := "";
      selectedSubmission := None;
      showApproveModal := false;
      showRejectModal := false;
    }

    /** `handleApprove`: nothing without a selection; otherwise "VERIFIED" for the selected id. */
    method Approve() returns (request: Option<UpdateStatusParams>)
      ensures selectedSubmission.None? ==> request.None?
      ensures selectedSubmission.Some? ==>
                request == Some(UpdateStatusParams(Some(selectedSubmission.value.id), "VERIFIED", None))
    {
      if selectedSubmission.None? {
        return None;
      }
      request := Some(UpdateStatusParams(Some(selectedSubmission.value.id), "VERIFIED", None));
    }

    /** `handleReject(reason)`: nothing without a selection; otherwise "REJECTED" with the reason. */
    method Reject(reason: string) returns (request: Option<UpdateStatusParams>)
      ensures selectedSubmission.None? ==> request.None?
      ensures selectedSubmission.Some? ==>
                request == Some(UpdateStatusParams(Some(selectedSubmission.value.id), "REJECTED", Some(reason)))
    {
      if selectedSubmission.None? {
        return None;
      }
      request := Some(UpdateStatusParams(Some(selectedSubmission.value.id), "REJECTED", Some(reason)));
    }

    /** The `onSuccess` of either request: the selection and the modal are cleared; a failed
        request leaves both. */
    method SettleApprove(succeeded: bool)
      modifies this`selectedSubmission, this`showApproveModal
      ensures succeeded ==> selectedSubmission.None? && !showApproveModal
      ensures !succeeded ==> selectedSubmission == old(selectedSubmission) && showApproveModal == old(showApproveModal)
    {
      if succeeded {
        selectedSubmission := None;
        showApproveModal := false;
      }
    }

    method SettleReject(succeeded: bool)
      modifies this`selectedSubmission, this`showRejectModal
      ensures succeeded ==> selectedSubmission.None? && !showRejectModal
      ensures !succeeded ==> selectedSubmission == old(selectedSubmission) && showRejectModal == old(showRejectModal)
    {
      if succeeded {
        selectedSubmission := None;
        showRejectModal := false;
      }
    }

    /** `handleLogout`: filters, selection and modals reset; the kyc key and URL removed (the
        reload that follows is not modelled). */
    method Logout()
      modifies this, storage
      ensures statusFilter == "" && searchQuery == "" && startDate == "" && endDate == ""
      ensures selectedSubmission.None? && !showApproveModal && !showRejectModal
      ensures storage.writable == old(storage.writable)
      ensures storage.entries ==
                if storage.writable then old(storage.entries) - {"admin_api_key_kyc", "admin_api_key_kyc_url"}
                else old(storage.entries)
    {
      statusFilter := "";
      searchQuery := "";
      startDate := "";
      endDate := "";
      selectedSubmission := None;
      showApproveModal := false;
      showRejectModal := false;
      var ok := storage.RemoveItem("admin_api_key_kyc");
      if ok {
        ok := storage.RemoveItem("admin_api_key_kyc_url");
      }
    }
  }
}

/** The KYC submission detail page: status badge and label, the approve and reject payloads,
    and the document-type text. */
module KycDetailPage {
  import opened Common
  import opened Text
  import opened UseKyc
  import KycPage

  function StatusBadgeClass(status: string): (r: string)
    ensures Lower(status) == "pending" ==> r == "status-badge pending"
    ensures Lower(status) == "approved" ==> r == "status-badge verified"
    ensures Lower(status) == "rejected" ==> r == "status-badge rejected"
    ensures Lower(status) !in {"pending", "approved", "rejected"} ==> r == "status-badge"
  {
    var s := Lower(status);
    if s == "pending" then "status-badge pending"
    else if s == "approved" then "status-badge verified"
    else if s == "rejected" then "status-badge rejected"
    else "status-badge"
  }

  function StatusLabel(status: string): (r: string)
    ensures Lower(status) == "pending" ==> r == "Pending"
    ensures Lower(status) == "approved" ==> r == "Approved"
    ensures Lower(status) == "rejected" ==> r == "Rejected"
    ensures Lower(status) !in {"pending", "approved", "rejected"} ==> r == status
  {
    var s := Lower(status);
    if s == "pending" then "Pending"
    else if s == "approved" then "Approved"
    else if s == "rejected" then "Rejected"
    else status
  }

  /** Actions are shown only for the exact, lower-case "pending". */
  predicate ShowsActions(status: string) { status == "pending" }

  /** `submission.id || submission.submissionId`. */
  function PayloadId(submission: KycDetails): (r: Option<string>)
    ensures Truthy(submission.id) ==> r == submission.id
    ensures !Truthy(submission.id) ==> r == submission.submissionId
  {
    if Truthy(submission.id) then submission.id else submission.submissionId
  }

  function ApprovePayload(submission: KycDetails): (p: UpdateStatusParams)
    ensures p == UpdateStatusParams(PayloadId(submission), "approved", None)
  {
    UpdateStatusParams(PayloadId(submission), "approved", None)
  }

  function RejectPayload(submission: KycDetails, reason: string): (p: UpdateStatusParams)
    ensures p == UpdateStatusParams(PayloadId(submission), "rejected", Some(reason))
  {
    UpdateStatusParams(PayloadId(submission), "rejected", Some(reason))
  }

  /** The two KYC pages speak different status vocabularies. No status offers the review actions
      on both pages; the status the list page writes on approval ("VERIFIED") gets the bare
      badge and is shown verbatim here; and the statuses this page writes ("approved",
      "rejected") are counted in none of the list page's counters. */
  lemma StatusVocabulariesDiffer(details: KycDetails, s: KycSubmission)
    ensures !(KycPage.ShowsActions(Some(details)) && ShowsActions(details.status))
    ensures StatusBadgeClass("VERIFIED") == "status-badge" && StatusLabel("VERIFIED") == "VERIFIED"
    ensures s.status == ApprovePayload(details).status || s.status == RejectPayload(details, "").status ==>
              !KycPage.IsPending(s) && !KycPage.IsVerified(s) && !KycPage.IsRejected(s)
  {
    assert Lower("VERIFIED") == "verified";
  }

  /** A character matched by the regular expression `\w`. */
  predicate IsWordChar(c: char) { IsUpperAscii(c) || IsLowerAscii(c) || IsDigit(c) || c == '_' }

  /** `s.replace(/\b\w/g, l => l.toUpperCase())`: the first character of every word upper-cased. */
  function CapitalizeWords(s: string): (r: string)
    ensures |r| == |s|
    ensures forall i :: 0 <= i < |s| ==>
              r[i] == if IsWordChar(s[i]) && (i == 0 || !IsWordChar(s[i - 1])) then UpperChar(s[i]) else s[i]
  {
    seq(|s|, i requires 0 <= i < |s| =>
      if IsWordChar(s[i]) && (i == 0 || !IsWordChar(s[i - 1])) then UpperChar(s[i]) else s[i])
  }

  /** The document type shown: only the first "_" becomes a space, then words are capitalised;
      a missing or empty type reads "N/A". */
  function DocumentTypeText(documentType: Option<string>): (r: string)
    ensures !Truthy(documentType) ==> r == "N/A"
    ensures Truthy(documentType) ==> r == CapitalizeWords(ReplaceFirst(documentType.value, '_', ' '))
  {
    if documentType.None? then "N/A"
    else
      var shown := CapitalizeWords(ReplaceFirst(documentType.value, '_', ' '));
      if shown == "" then "N/A" else shown
  }

  /** Only the first "_" becomes a space; a later "_" is kept, and the character after it is not
      capitalised, because "_" is a word character. */
  lemma OnlyFirstUnderscoreReplaced(s: string, j: nat)
    requires '_' in s && IndexOf(s, '_') < j < |s|
    ensures var shown := DocumentTypeText(Some(s));
            |shown| == |s| && shown[IndexOf(s, '_')] == ' ' && shown[j] == UpperCharIfWordStart(s, j)
    ensures var shown := DocumentTypeText(Some(s));
            s[j] == '_' && j + 1 < |s| ==> shown[j] == '_' && shown[j + 1] == s[j + 1]
  {
    var k := IndexOf(s, '_');
    var r := ReplaceFirst(s, '_', ' ');
    assert r[k] == ' ';
    assert r[j] == s[j] && r[j - 1] == (if j - 1 == k then ' ' else s[j - 1]);
    if j + 1 < |s| {
      assert r[j + 1] == s[j + 1];
    }
  }

  /** The character at `j` after the first "_" of `s` has become a space and words are
      capitalised. */
  function UpperCharIfWordStart(s: string, j: nat): char
    requires '_' in s && IndexOf(s, '_') < j < |s|
  {
    var before := if j - 1 == IndexOf(s, '_') then ' ' else s[j - 1];
    if IsWordChar(s[j]) && !IsWordChar(before) then UpperChar(s[j]) else s[j]
  }
}
