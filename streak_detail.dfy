/** The streak submission detail page: which actions it offers for a submission's status, and
    the approve and reject handlers of its dialog. */
module StreakDetailPage {
  import opened Common
  import opened Entities
  import opened StreakReview

  /** The actions shown for a submission. */
  datatype Actions = Actions(approveAndReject: bool, addToCart: bool, addToCartDisabled: bool,
                             addToCartLabel: string)

  function ActionsFor(status: int, inCart: bool): (a: Actions)
    ensures a.approveAndReject <==> status == 0
    ensures a.addToCart <==> status == 1
    ensures a.addToCart ==> (a.addToCartDisabled <==> inCart)
    ensures a.addToCart ==> a.addToCartLabel == (if inCart then "Already in Cart" else "Add to Cart")
  {
    if status == 1 then Actions(false, true, inCart, if inCart then "Already in Cart" else "Add to Cart")
    else Actions(status == 0, false, false, "")
  }

  /** A submission is never offered both review and the cart: review is for pending (0)
      submissions, the cart for approved (1) ones; rejected or unknown statuses get neither. */
  lemma ActionsExclusive(status: int, inCart: bool)
    ensures !(ActionsFor(status, inCart).approveAndReject && ActionsFor(status, inCart).addToCart)
    ensures status != 0 && status != 1 ==>
              !ActionsFor(status, inCart).approveAndReject && !ActionsFor(status, inCart).addToCart
  {
  }

  datatype DialogType = ApproveDialog | RejectDialog

  /** The dialog state of the page for one loaded submission. */
  class StreakDetailPage {
    const submission: StreakSubmission
    const parseBigInt: string -> Option<int>
    const parseEther: string -> Option<int>
    var dialogOpen: bool
    var dialogType: DialogType
    var amount: string
    var reason: string

    constructor (submission: StreakSubmission, parseBigInt: string -> Option<int>,
                 parseEther: string -> Option<int>)
      ensures this.submission == submission
      ensures this.parseBigInt == parseBigInt && this.parseEther == parseEther
      ensures !dialogOpen && dialogType == ApproveDialog && amount == "" && reason == ""
    {
      this.submission := submission;
      this.parseBigInt := parseBigInt;
      this.parseEther := parseEther;
      dialogOpen := false;
      dialogType := ApproveDialog;
      amount := "";
      reason := "";
    }

    /** `handleApprove`: nothing for an empty amount; otherwise one id and one 18-decimal
        amount are sent (no positivity check), and the dialog closes and the amount clears at
        once, before the transaction's outcome is known. A conversion that throws leaves the
        state as it was. */
    method Approve() returns (request: Option<ApproveRequest>)
      modifies this`dialogOpen, this`amount
      ensures old(amount) == "" ==> request.None? && dialogOpen == old(dialogOpen) && amount == old(amount)
      ensures old(amount) != "" ==> request == ApproveOne(submission.submissionId, old(amount), parseBigInt, parseEther)
      ensures request.Some? ==> !dialogOpen && amount == ""
      ensures request.None? ==> dialogOpen == old(dialogOpen) && amount == old(amount)
    {
      if amount == "" {
        return None;
      }
      request := ApproveOne(submission.submissionId, amount, parseBigInt, parseEther);
      if request.Some? {
        dialogOpen := false;
        amount := "";
      }
    }

    /** `handleReject`: nothing for an empty reason; a reason of spaces is sent as it is. */
    method Reject() returns (request: Option<RejectRequest>)
      modifies this`dialogOpen, this`reason
      ensures old(reason) == "" ==> request.None? && dialogOpen == old(dialogOpen) && reason == old(reason)
      ensures old(reason) != "" ==> request == RejectOne(submission.submissionId, old(reason), parseBigInt)
      ensures request.Some? ==> request.value.reasons == [old(reason)] && !dialogOpen && reason == ""
      ensures request.None? ==> dialogOpen == old(dialogOpen) && reason == old(reason)
    {
      if reason == "" {
        return None;
      }
      request := RejectOne(submission.submissionId, reason, parseBigInt);
      if request.Some? {
        dialogOpen := false;
        reason := "";
      }
    }
  }
}
