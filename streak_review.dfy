/** The review requests the streak pages send: approval of submissions with amounts in wei,
    rejection with reasons. The mutations that forward them are not part of this model; the
    conversions (`BigInt` of an id string, `parseEther`) are inputs and may throw (None). */
module StreakReview {
  import opened Common

  datatype ApproveRequest = ApproveRequest(submissionIds: seq<int>, amounts: seq<int>)
  datatype RejectRequest = RejectRequest(submissionIds: seq<int>, reasons: seq<string>)

  /** `{ submissionIds: [BigInt(id)], amounts: [parseEther(amount)] }`. */
  function ApproveOne(submissionId: string, amount: string, parseBigInt: string -> Option<int>,
                      parseEther: string -> Option<int>): (r: Option<ApproveRequest>)
    ensures r.Some? <==> parseBigInt(submissionId).Some? && parseEther(amount).Some?
    ensures r.Some? ==> r.value == ApproveRequest([parseBigInt(submissionId).value], [parseEther(amount).value])
  {
    var id := parseBigInt(submissionId);
    var wei := parseEther(amount);
    if id.Some? && wei.Some? then Some(ApproveRequest([id.value], [wei.value])) else None
  }

  /** `{ submissionIds: [BigInt(id)], reasons: [reason] }`; the reason is passed as typed. */
  function RejectOne(submissionId: string, reason: string, parseBigInt: string -> Option<int>)
    : (r: Option<RejectRequest>)
    ensures r.Some? <==> parseBigInt(submissionId).Some?
    ensures r.Some? ==> r.value == RejectRequest([parseBigInt(submissionId).value], [reason])
  {
    var id := parseBigInt(submissionId);
    if id.Some? then Some(RejectRequest([id.value], [reason])) else None
  }
}
