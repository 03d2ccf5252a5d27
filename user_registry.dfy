/** The mutation that sets a user's referral code on the User Registry contract. The wallet and
    the configured contract address are inputs; sending the transaction is not modelled. */
module UseUserRegistry {
  import opened Common
  import opened Text
  import UpdateReferralCodeModal

  datatype SetUserReferralCodeParams = SetUserReferralCodeParams(userAddress: string, referralCode: string)

  /** The single clause sent: contract address, function name and arguments. */
  datatype Clause = Clause(to: string, functionName: string, args: seq<string>)

  datatype Outcome = Thrown(message: string) | Sent(clauses: seq<Clause>)

  /** The mutation function: the wallet check, then the address check, then the argument check;
      only then one `setUserReferralCode` clause with the address and the trimmed code. */
  function SetUserReferralCode(params: SetUserReferralCodeParams, account: Option<string>,
                               userRegistry: Option<string>): (r: Outcome)
    ensures account.None? ==> r == Thrown("Wallet not connected")
    ensures account.Some? && !Truthy(userRegistry) ==> r == Thrown("User Registry address not configured")
    ensures account.Some? && Truthy(userRegistry) && (params.userAddress == "" || Trim(params.referralCode) == "") ==>
              r == Thrown("User address and referral code are required")
    ensures r.Sent? <==> account.Some? && Truthy(userRegistry) && params.userAddress != "" && Trim(params.referralCode) != ""
    ensures r.Sent? ==> r.clauses == [Clause(userRegistry.value, "setUserReferralCode",
                                             [params.userAddress, Trim(params.referralCode)])]
  {
    if account.None? then Thrown("Wallet not connected")
    else if !Truthy(userRegistry) then Thrown("User Registry address not configured")
    else if params.userAddress == "" || Trim(params.referralCode) == "" then
      Thrown("User address and referral code are required")
    else Sent([Clause(userRegistry.value, "setUserReferralCode", [params.userAddress, Trim(params.referralCode)])])
  }

  /** A code accepted by the dialog, sent for a known user with a connected wallet and a
      configured registry, reaches the contract exactly as the dialog confirmed it. */
  lemma DialogCodeReachesContract(userAddress: string, typed: string, account: Option<string>,
                                  userRegistry: Option<string>)
    requires UpdateReferralCodeModal.ValidateReferralCode(typed).Accepted?
    requires account.Some? && Truthy(userRegistry) && userAddress != ""
    ensures var code := UpdateReferralCodeModal.ValidateReferralCode(typed).code;
            SetUserReferralCode(SetUserReferralCodeParams(userAddress, code), account, userRegistry) ==
              Sent([Clause(userRegistry.value, "setUserReferralCode", [userAddress, code])])
  {
    TrimIdempotent(typed);
  }
}
