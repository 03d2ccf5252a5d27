/** The reject dialog of the KYC pages: a reason text area whose trimmed content is confirmed. */
module KycRejectModal {
  import opened Common
  import opened Text

  /** The submit button is disabled while the request runs or when the trimmed reason is empty. */
  predicate SubmitDisabled(reason: string, isLoading: bool) {
    isLoading || Trim(reason) == ""
  }

  /** What a submit hands to `onConfirm`: the trimmed reason, or nothing when it is blank. */
  function Confirmed(reason: string): (r: Option<string>)
    ensures r.None? <==> forall i :: 0 <= i < |reason| ==> IsWhitespace(reason[i])
    ensures r.Some? ==> r.value == Trim(reason) && r.value != "" && Trim(r.value) == r.value
  {
    TrimIdempotent(reason);
    if Trim(reason) != "" then Some(Trim(reason)) else None
  }

  /** An enabled submit button always confirms something. */
  lemma EnabledSubmitConfirms(reason: string, isLoading: bool)
    requires !SubmitDisabled(reason, isLoading)
    ensures Confirmed(reason).Some? && !isLoading
  {
  }

  class RejectDialog {
    var reason: string

    constructor ()
      ensures reason == ""
    {
      reason := "";
    }

    method Edit(text: string)
      modifies this
      ensures reason == text
    {
      reason := text;
    }

    /** `handleSubmit`: confirm the trimmed reason and clear the field; a blank reason does
        nothing. */
    method Submit() returns (confirmed: Option<string>)
      modifies this
      ensures confirmed == Confirmed(old(reason))
      ensures reason == if confirmed.Some? then "" else old(reason)
    {
      confirmed := Confirmed(reason);
      if confirmed.Some? {
        reason := "";
      }
    }

    /** `handleClose`: the reason is cleared. */
    method Close()
      modifies this
      ensures reason == ""
    {
      reason := "";
    }
  }
}

/** The dialog that updates a user's referral code. */
module UpdateReferralCodeModal {
  import opened Common
  import opened Text

  datatype Validation = Accepted(code: string) | Rejected(message: string)

  /** `handleConfirm`'s checks on the trimmed code, in order: empty, shorter than 2, longer
      than 50. */
  function ValidateReferralCode(referralCode: string): (r: Validation)
    ensures Trim(referralCode) == "" ==> r == Rejected("Referral code cannot be empty")
    ensures 0 < |Trim(referralCode)| < 2 ==> r == Rejected("Referral code must be at least 2 characters")
    ensures |Trim(referralCode)| > 50 ==> r == Rejected("Referral code must be less than 50 characters")
    ensures r.Accepted? ==> r.code == Trim(referralCode)
  {
    var trimmed := Trim(referralCode);
    if trimmed == "" then Rejected("Referral code cannot be empty")
    else if |trimmed| < 2 then Rejected("Referral code must be at least 2 characters")
    else if |trimmed| > 50 then Rejected("Referral code must be less than 50 characters")
    else Accepted(trimmed)
  }

  /** A code is accepted exactly when its trimmed length is between 2 and 50, inclusive: a code of
      exactly 50 characters passes although the message speaks of "less than 50". */
  lemma AcceptedIffLengthInRange(referralCode: string)
    ensures ValidateReferralCode(referralCode).Accepted? <==> 2 <= |Trim(referralCode)| <= 50
  {
  }

  /** An accepted code is already trimmed and validates again unchanged. */
  lemma AcceptedCodeIsStable(referralCode: string)
    requires ValidateReferralCode(referralCode).Accepted?
    ensures ValidateReferralCode(ValidateReferralCode(referralCode).code) == ValidateReferralCode(referralCode)
  {
    TrimIdempotent(referralCode);
  }

  predicate ConfirmDisabled(referralCode: string, isLoading: bool) {
    isLoading || Trim(referralCode) == ""
  }

  /** With the button enabled the empty-code message can never be shown: only the length
      checks can still reject. */
  lemma EnabledConfirmPassesEmptyCheck(referralCode: string, isLoading: bool)
    requires !ConfirmDisabled(referralCode, isLoading)
    ensures !isLoading
    ensures ValidateReferralCode(referralCode).Rejected? ==>
              |Trim(referralCode)| < 2 || |Trim(referralCode)| > 50
  {
    AcceptedIffLengthInRange(referralCode);
  }

  class ReferralDialog {
    var referralCode: string
    var error: string

    constructor ()
      ensures referralCode == "" && error == ""
    {
      referralCode := "";
      error := "";
    }

    /** Typing replaces the code and clears the error. */
    method Edit(text: string)
      modifies this
      ensures referralCode == text && error == ""
    {
      referralCode := text;
      error := "";
    }

    /** `handleConfirm`: on acceptance the error is cleared and the trimmed code is confirmed;
        otherwise the first failing check's message is shown and nothing is confirmed. */
    method Confirm() returns (confirmed: Option<string>)
      modifies this`error
      ensures ValidateReferralCode(referralCode).Accepted? ==>
                confirmed == Some(ValidateReferralCode(referralCode).code) && error == ""
      ensures ValidateReferralCode(referralCode).Rejected? ==>
                confirmed.None? && error == ValidateReferralCode(referralCode).message
    {
      var v := ValidateReferralCode(referralCode);
      if v.Rejected? {
        error := v.message;
        return None;
      }
      error := "";
      confirmed := Some(v.code);
    }

    /** `handleClose`: both the code and the error are reset. */
    method Close()
      modifies this
      ensures referralCode == "" && error == ""
    {
      referralCode := "";
      error := "";
    }
  }
}
