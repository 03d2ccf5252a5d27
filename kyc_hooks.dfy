/** The KYC service hooks: the submissions endpoint with its optional query string, the
    normalisation of the list response, the details request and the update-status body. The
    HTTP client is not modelled; a response body is an input. */
module UseKyc {
  import opened Common
  import UrlSearchParams
  import UseBank

  /** A submission in the list. */
  datatype KycSubmission = KycSubmission(id: string, address: string, status: string, submittedAt: string)

  /** The details of one submission, as far as the pages read them. */
  datatype KycDetails = KycDetails(
    id: Option<string>, submissionId: Option<string>, status: string, documentType: Option<string>)

  const SubmissionsPath := "/kyc/admin/submissions"

  /** status, startDate and endDate, in that order, each only when non-empty. */
  function SubmissionsParams(statusFilter: Option<string>, startDate: Option<string>, endDate: Option<string>)
    : (r: seq<UrlSearchParams.Pair>)
    ensures r == [] <==> !Truthy(statusFilter) && !Truthy(startDate) && !Truthy(endDate)
    ensures |r| == UseBank.Present(statusFilter) + UseBank.Present(startDate) + UseBank.Present(endDate)
    ensures Truthy(statusFilter) ==> r[0] == ("status", statusFilter.value)
    ensures Truthy(startDate) ==> r[UseBank.Present(statusFilter)] == ("startDate", startDate.value)
    ensures Truthy(endDate) ==>
              r[UseBank.Present(statusFilter) + UseBank.Present(startDate)] == ("endDate", endDate.value)
  {
    UseBank.FilterParams(statusFilter, startDate, endDate)
  }

  /** The submissions endpoint, with "?" and the query string only when some parameter was
      appended. */
  method SubmissionsEndpoint(statusFilter: Option<string>, startDate: Option<string>, endDate: Option<string>)
    returns (endpoint: string)
    ensures var query := UrlSearchParams.Serialize(SubmissionsParams(statusFilter, startDate, endDate));
            endpoint == if query != "" then SubmissionsPath + "?" + query else SubmissionsPath
  {
    var params := new UrlSearchParams.SearchParams();
    if Truthy(statusFilter) {
      params.Append("status", statusFilter.value);
    }
    if Truthy(startDate) {
      params.Append("startDate", startDate.value);
    }
    if Truthy(endDate) {
      params.Append("endDate", endDate.value);
    }
    assert params.pairs == SubmissionsParams(statusFilter, startDate, endDate);
    var queryString := params.ToString();
    endpoint := if queryString != "" then SubmissionsPath + "?" + queryString else SubmissionsPath;
  }

  /** The endpoint carries a query exactly when some filter is set. */
  lemma EndpointHasQueryIffFiltered(statusFilter: Option<string>, startDate: Option<string>, endDate: Option<string>)
    ensures var query := UrlSearchParams.Serialize(SubmissionsParams(statusFilter, startDate, endDate));
            var endpoint := if query != "" then SubmissionsPath + "?" + query else SubmissionsPath;
            ('?' in endpoint <==> Truthy(statusFilter) || Truthy(startDate) || Truthy(endDate))
  {
    var pairs := SubmissionsParams(statusFilter, startDate, endDate);
    var query := UrlSearchParams.Serialize(pairs);
    assert query == "" <==> pairs == [];
    if query != "" {
      var endpoint := SubmissionsPath + "?" + query;
      assert endpoint[|SubmissionsPath|] == '?';
    } else {
      PathHasNoQuestionMark();
    }
  }

  lemma PathHasNoQuestionMark()
    ensures '?' !in SubmissionsPath
  {
    assert forall i :: 0 <= i < |SubmissionsPath| ==> SubmissionsPath[i] != '?';
  }

  /** `Array.isArray(response.data) ? response.data : []`. */
  function SubmissionsResult(body: UseBank.Json<KycSubmission>): (r: seq<KycSubmission>)
    ensures body.Items? ==> r == body.items
    ensures !body.Items? ==> r == []
  {
    if body.Items? then body.items else []
  }

  predicate ListEnabled(kycApiKey: string) { kycApiKey != "" }

  predicate DetailsEnabled(kycApiKey: string, submissionId: Option<string>) {
    kycApiKey != "" && Truthy(submissionId)
  }

  /** Both queries need the service key: an enabled details query implies an enabled list
      query, and without a key neither runs. */
  lemma DetailsNeedKey(kycApiKey: string, submissionId: Option<string>)
    ensures DetailsEnabled(kycApiKey, submissionId) ==> ListEnabled(kycApiKey)
    ensures kycApiKey == "" ==> !ListEnabled(kycApiKey) && !DetailsEnabled(kycApiKey, submissionId)
  {
  }

  /** The details request path; None is the "Submission ID is required" error. */
  function DetailsPath(submissionId: Option<string>): (r: Option<string>)
    ensures r.Some? <==> Truthy(submissionId)
    ensures r.Some? ==> r.value == SubmissionsPath + "/" + submissionId.value
  {
    if Truthy(submissionId) then Some(SubmissionsPath + "/" + submissionId.value) else None
  }

  /** A details query that is enabled never throws for want of an id. */
  lemma EnabledDetailsHavePath(kycApiKey: string, submissionId: Option<string>)
    requires DetailsEnabled(kycApiKey, submissionId)
    ensures DetailsPath(submissionId).Some?
  {
  }

  /** What the pages pass to `updateStatus`. */
  datatype UpdateStatusParams = UpdateStatusParams(
    submissionId: Option<string>, status: string, rejectionReason: Option<string>)

  datatype UpdateStatusBody = UpdateStatusBody(
    submissionId: Option<string>, status: string, rejectionReason: Option<string>, reviewedBy: string)

  /** The POST body of `/kyc/admin/update-status`: the parameters as given, reviewed by "admin". */
  function UpdateStatusRequest(params: UpdateStatusParams): (body: UpdateStatusBody)
    ensures body.reviewedBy == "admin"
    ensures body.submissionId == params.submissionId && body.status == params.status
    ensures body.rejectionReason == params.rejectionReason
  {
    UpdateStatusBody(params.submissionId, params.status, params.rejectionReason, "admin")
  }
}
