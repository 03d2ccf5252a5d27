/** The reward-distribution mutations of the rewards hook. Each mutation checks the wallet,
    then the configured Rewards Manager address, converts its arguments and sends exactly one
    contract clause. The wallet, the transaction sender and the library conversions are
    inputs. */
module UseRewardsManager {
  import opened Common
  import opened Foreign

  datatype SendRewardsParams = SendRewardsParams(
    recipients: seq<string>,
    amounts: seq<string>,
    rewardTypes: seq<int>)

  datatype DistributeRewardsParams = DistributeRewardsParams(
    cleanupId: JsNumber,
    participants: seq<string>,
    amounts: seq<string>)

  datatype DistributeStreaksRewardParams = DistributeStreaksRewardParams(
    submissionIds: seq<string>,
    amounts: seq<string>)

  /** The arguments of one contract call, after conversion (amounts in wei). */
  datatype CallArgs =
    | SendRewardsArgs(recipients: seq<string>, amountsWei: seq<int>, rewardTypes: seq<int>)
    | DistributeRewardsArgs(cleanupId: int, participants: seq<string>, amountsWei: seq<int>)
    | DistributeStreaksRewardArgs(submissionIds: seq<int>, amountsWei: seq<int>)

  /** A clause: the contract address, the function called and its arguments. */
  datatype Clause = Clause(to: string, functionName: string, args: CallArgs)

  /** Why a mutation threw before sending anything. */
  datatype MutationError = WalletNotConnected | AddressNotConfigured | ConversionFailed

  /** The message a mutation throws with. For a failed conversion the text is a placeholder
      standing for the number library's own message, which is not modelled. */
  function ErrorMessage(e: MutationError): string {
    match e
    case WalletNotConnected => "Wallet not connected"
    case AddressNotConfigured => "Rewards Manager address not configured"
    case ConversionFailed => "conversion error raised by the number library"
  }

  /** What a mutation function does: throw, or send the given clauses in one transaction. */
  datatype Outcome = Thrown(error: MutationError) | Sent(clauses: seq<Clause>)

  /** `xs.map(convert)` with a conversion that may throw: the converted list, or None as soon as
      one element fails. */
  function MapConvert(xs: seq<string>, convert: string -> Option<int>): (r: Option<seq<int>>)
    ensures r.Some? <==> forall i :: 0 <= i < |xs| ==> convert(xs[i]).Some?
    ensures r.Some? ==> |r.value| == |xs| &&
                        forall i :: 0 <= i < |xs| ==> convert(xs[i]) == Some(r.value[i])
  {
    if xs == [] then Some([])
    else
      var head := convert(xs[0]);
      var tail := MapConvert(xs[1..], convert);
      if head.Some? && tail.Some? then
        Some([head.value] + tail.value)
      else
        assert head.None? ==> !convert(xs[0]).Some?;
        assert tail.None? ==> exists i :: 0 <= i < |xs| - 1 && convert(xs[1..][i]).None?;
        None
  }

  /** The guards every mutation starts with, in order. */
  function Guard(account: Option<string>, rewardsManager: Option<string>): (r: Option<MutationError>)
    ensures account.None? ==> r == Some(WalletNotConnected)
    ensures account.Some? && !Truthy(rewardsManager) ==> r == Some(AddressNotConfigured)
    ensures r.None? <==> account.Some? && Truthy(rewardsManager)
  {
    if account.None? then Some(WalletNotConnected)
    else if !Truthy(rewardsManager) then Some(AddressNotConfigured)
    else None
  }

  /** `sendRewards`'s mutation function. `parseUnits18` is `parseUnits(amount, 18)`. */
  function SendRewards(params: SendRewardsParams, account: Option<string>, rewardsManager: Option<string>,
                       parseUnits18: string -> Option<int>): (r: Outcome)
    ensures Guard(account, rewardsManager).Some? ==> r == Thrown(Guard(account, rewardsManager).value)
    ensures r.Sent? <==> Guard(account, rewardsManager).None? && MapConvert(params.amounts, parseUnits18).Some?
    ensures r.Sent? ==>
              |r.clauses| == 1 &&
              r.clauses[0] == Clause(rewardsManager.value, "sendRewards",
                                     SendRewardsArgs(params.recipients,
                                                     MapConvert(params.amounts, parseUnits18).value,
                                                     params.rewardTypes))
  {
    var g := Guard(account, rewardsManager);
    if g.Some? then Thrown(g.value)
    else
      var amountsWei := MapConvert(params.amounts, parseUnits18);
      if amountsWei.None? then Thrown(ConversionFailed)
      else Sent([Clause(rewardsManager.value, "sendRewards",
                        SendRewardsArgs(params.recipients, amountsWei.value, params.rewardTypes))])
  }

  /** `distributeRewards`'s mutation function; the cleanup id goes through `BigInt`. */
  function DistributeRewards(params: DistributeRewardsParams, account: Option<string>,
                             rewardsManager: Option<string>, parseUnits18: string -> Option<int>): (r: Outcome)
    ensures Guard(account, rewardsManager).Some? ==> r == Thrown(Guard(account, rewardsManager).value)
    ensures r.Sent? <==> Guard(account, rewardsManager).None? &&
                         MapConvert(params.amounts, parseUnits18).Some? &&
                         IsInteger(params.cleanupId)
    ensures r.Sent? ==>
              |r.clauses| == 1 &&
              r.clauses[0] == Clause(rewardsManager.value, "distributeRewards",
                                     DistributeRewardsArgs(NumberToBigInt(params.cleanupId).value,
                                                           params.participants,
                                                           MapConvert(params.amounts, parseUnits18).value))
  {
    var g := Guard(account, rewardsManager);
    if g.Some? then Thrown(g.value)
    else
      var amountsWei := MapConvert(params.amounts, parseUnits18);
      if amountsWei.None? then Thrown(ConversionFailed)
      else
        var cleanupId := NumberToBigInt(params.cleanupId);
        if cleanupId.None? then Thrown(ConversionFailed)
        else Sent([Clause(rewardsManager.value, "distributeRewards",
                          DistributeRewardsArgs(cleanupId.value, params.participants, amountsWei.value))])
  }

  /** `distributeStreaksReward`'s mutation function; ids go through `BigInt` (`parseBigInt`). */
  function DistributeStreaksReward(params: DistributeStreaksRewardParams, account: Option<string>,
                                   rewardsManager: Option<string>, parseBigInt: string -> Option<int>,
                                   parseUnits18: string -> Option<int>): (r: Outcome)
    ensures Guard(account, rewardsManager).Some? ==> r == Thrown(Guard(account, rewardsManager).value)
    ensures r.Sent? <==> Guard(account, rewardsManager).None? &&
                         MapConvert(params.submissionIds, parseBigInt).Some? &&
                         MapConvert(params.amounts, parseUnits18).Some?
    ensures r.Sent? ==>
              |r.clauses| == 1 &&
              r.clauses[0] == Clause(rewardsManager.value, "distributeStreaksReward",
                                     DistributeStreaksRewardArgs(MapConvert(params.submissionIds, parseBigInt).value,
                                                                 MapConvert(params.amounts, parseUnits18).value))
  {
    var g := Guard(account, rewardsManager);
    if g.Some? then Thrown(g.value)
    else
      var ids := MapConvert(params.submissionIds, parseBigInt);
      if ids.None? then Thrown(ConversionFailed)
      else
        var amountsWei := MapConvert(params.amounts, parseUnits18);
        if amountsWei.None? then Thrown(ConversionFailed)
        else Sent([Clause(rewardsManager.value, "distributeStreaksReward",
                          DistributeStreaksRewardArgs(ids.value, amountsWei.value))])
  }

  /** Without a wallet every mutation throws "Wallet not connected", whatever else holds. */
  lemma WalletCheckedFirst(account: Option<string>, rewardsManager: Option<string>,
                           send: SendRewardsParams, distribute: DistributeRewardsParams,
                           streaks: DistributeStreaksRewardParams,
                           parseBigInt: string -> Option<int>, parseUnits18: string -> Option<int>)
    requires account.None?
    ensures SendRewards(send, account, rewardsManager, parseUnits18) == Thrown(WalletNotConnected)
    ensures DistributeRewards(distribute, account, rewardsManager, parseUnits18) == Thrown(WalletNotConnected)
    ensures DistributeStreaksReward(streaks, account, rewardsManager, parseBigInt, parseUnits18) == Thrown(WalletNotConnected)
    ensures ErrorMessage(WalletNotConnected) == "Wallet not connected"
  {
  }

  /** Converted parallel arrays keep their pairing: the streak call carries as many ids as
      amounts whenever it was given as many. */
  lemma StreakArgumentsAligned(params: DistributeStreaksRewardParams, account: Option<string>,
                               rewardsManager: Option<string>, parseBigInt: string -> Option<int>,
                               parseUnits18: string -> Option<int>)
    requires |params.submissionIds| == |params.amounts|
    ensures var r := DistributeStreaksReward(params, account, rewardsManager, parseBigInt, parseUnits18);
            r.Sent? ==> |r.clauses[0].args.submissionIds| == |r.clauses[0].args.amountsWei| == |params.amounts|
  {
  }

  /** `isPending`: the transaction or the mutation is still running. */
  function IsPending(isTransactionPending: bool, mutationPending: bool): (b: bool)
    ensures b <==> isTransactionPending || mutationPending
    ensures !b ==> !isTransactionPending && !mutationPending
  {
    isTransactionPending || mutationPending
  }

  datatype UserReward = UserReward(pending: string, claimed: string)

  /** `useUserRewards`'s query function: always resolves to null. */
  function UserRewards(userAddress: Option<string>, rewardsManager: Option<string>): (r: Option<UserReward>)
    ensures r.None?
  {
    None
  }

  /** `useUserRewards` runs only with a user address and a connected wallet. */
  function UserRewardsEnabled(userAddress: Option<string>, account: Option<string>): (b: bool)
    ensures b <==> Truthy(userAddress) && account.Some?
  {
    Truthy(userAddress) && account.Some?
  }
}
