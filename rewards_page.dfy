/** The Rewards Manager page: loading and vetting a cleanup for reward distribution, the
    validation filters that turn form rows and the page's streak cart into the parallel arrays
    the mutations take, and the page-local cart handlers. Pure rules are functions; the page
    state and its handlers are the class `RewardsManagerPage`. `positive` stands for the
    `parseFloat(amount) > 0` test and `toNumber` for `Number(s)`. */
module RewardsManagerPage {
  import opened Common
  import opened Text
  import opened Foreign
  import opened Entities
  import opened UseRewardsManager
  import StreakCartContext

  datatype RewardRecipient = RewardRecipient(address: string, amount: string, rewardType: int)

  datatype ParticipantReward = ParticipantReward(
    address: string,
    amount: string,
    userName: Option<string>,
    approvedAmount: Option<string>)

  /** One field of a send-form row with its new value (`handleRecipientChange(index, field,
      value)`); the reward type arrives through `parseInt` of the select's value. */
  datatype RecipientEdit = RecipientAddress(address: string) | RecipientAmount(amount: string)
                         | RecipientRewardType(rewardType: int)

  /** `{ ...row, [field]: value }` for a send-form row. */
  function EditRecipient(row: RewardRecipient, edit: RecipientEdit): (r: RewardRecipient)
    ensures edit.RecipientAddress? ==> r == RewardRecipient(edit.address, row.amount, row.rewardType)
    ensures edit.RecipientAmount? ==> r == RewardRecipient(row.address, edit.amount, row.rewardType)
    ensures edit.RecipientRewardType? ==> r == RewardRecipient(row.address, row.amount, edit.rewardType)
  {
    match edit
    case RecipientAddress(a) => row.(address := a)
    case RecipientAmount(a) => row.(amount := a)
    case RecipientRewardType(t) => row.(rewardType := t)
  }

  /** One field of a participant row with its new value (`handleParticipantChange`). */
  datatype ParticipantEdit = ParticipantAddress(address: string) | ParticipantAmount(amount: string)
                           | ParticipantUserName(userName: string) | ParticipantApprovedAmount(approvedAmount: string)

  /** `{ ...row, [field]: value }` for a participant row. */
  function EditParticipant(row: ParticipantReward, edit: ParticipantEdit): (r: ParticipantReward)
    ensures edit.ParticipantAddress? ==>
              r == ParticipantReward(edit.address, row.amount, row.userName, row.approvedAmount)
    ensures edit.ParticipantAmount? ==>
              r == ParticipantReward(row.address, edit.amount, row.userName, row.approvedAmount)
    ensures edit.ParticipantUserName? ==>
              r == ParticipantReward(row.address, row.amount, Some(edit.userName), row.approvedAmount)
    ensures edit.ParticipantApprovedAmount? ==>
              r == ParticipantReward(row.address, row.amount, row.userName, Some(edit.approvedAmount))
  {
    match edit
    case ParticipantAddress(a) => row.(address := a)
    case ParticipantAmount(a) => row.(amount := a)
    case ParticipantUserName(n) => row.(userName := Some(n))
    case ParticipantApprovedAmount(a) => row.(approvedAmount := Some(a))
  }

  /** The row the send form starts with (reward type 2, OTHERS). */
  const BlankRecipient := RewardRecipient("", "", 2)
  const BlankParticipant := ParticipantReward("", "", None, None)

  /** What a handler does: show an alert, or call the mutation with these parameters. */
  datatype Action<P> = Alert(message: string) | Dispatch(params: P)

  // ---------------------------------------------------------------------------------------------
  // Loading a cleanup

  const EmptyIdMessage := "Please enter a cleanup ID"
  const InvalidIdMessage := "Invalid cleanup ID format. Please enter a valid positive integer."

  datatype IdCheck = Accepted(id: string) | Rejected(message: string)

  /** The checks of `handleLoadCleanup`, in order, on the trimmed input. */
  function CheckCleanupId(input: string, toNumber: string -> JsNumber): (r: IdCheck)
    ensures r.Accepted? <==> Trim(input) != "" && IsPositiveInteger(toNumber(Trim(input)))
    ensures r.Accepted? ==> r.id == Trim(input)
    ensures Trim(input) == "" ==> r == Rejected(EmptyIdMessage)
    ensures Trim(input) != "" && !IsPositiveInteger(toNumber(Trim(input))) ==> r == Rejected(InvalidIdMessage)
  {
    var cleanupId := Trim(input);
    if cleanupId == "" then Rejected(EmptyIdMessage)
    else if !IsPositiveInteger(toNumber(cleanupId)) then Rejected(InvalidIdMessage)
    else Accepted(cleanupId)
  }

  /** An accepted id is already trimmed, and its number converts to a positive BigInt, so the
      distribution mutation never fails on the cleanup id. */
  lemma AcceptedIdConverts(input: string, toNumber: string -> JsNumber)
    requires CheckCleanupId(input, toNumber).Accepted?
    ensures var id := CheckCleanupId(input, toNumber).id;
            Trim(id) == id && NumberToBigInt(toNumber(id)).Some? && NumberToBigInt(toNumber(id)).value > 0
  {
    TrimIdempotent(input);
    PositiveIntegerToBigInt(toNumber(Trim(input)));
  }

  // ---------------------------------------------------------------------------------------------
  // Eligibility of a loaded cleanup

  function StatusName(status: int): string {
    if status == 0 then "UNPUBLISHED"
    else if status == 1 then "OPEN"
    else if status == 2 then "IN_PROGRESS"
    else "UNKNOWN"
  }

  function NotDistributableMessage(status: int): string {
    "Cleanup is not in a valid state for reward distribution. Status: " + StatusName(status) +
    ". Only COMPLETED (3) or REWARDED (4) cleanups can have rewards distributed."
  }

  const AlreadyDistributedMessage :=
    "This cleanup has already had rewards distributed. You cannot distribute rewards again."
  const NoProofMessage :=
    "This cleanup does not have proof of work submitted. Proof of work must be submitted before distributing rewards."
  const NoAcceptedMessage := "No accepted participants found for this cleanup."

  predicate IsAccepted(p: CleanupParticipant) { p.status == "accepted" }

  /** The form row of an accepted participant: its reward, or "0" when it has none. */
  function RewardRow(p: CleanupParticipant): (row: ParticipantReward)
    ensures row.address == p.participant && row.approvedAmount == Some(row.amount)
    ensures row.amount == OrElse(p.rewardEarned, "0") && row.amount != "" && row.userName.None?
  {
    var amount := OrElse(p.rewardEarned, "0");
    ParticipantReward(p.participant, amount, None, Some(amount))
  }

  /** A distributable status: 3 (COMPLETED) or 4 (REWARDED). */
  predicate DistributableStatus(status: int) { status == 3 || status == 4 }

  function AcceptedParticipants(c: Cleanup): seq<CleanupParticipant> {
    Filter(c.participants, IsAccepted)
  }

  datatype Eligibility = Eligibility(error: string, rows: seq<ParticipantReward>)

  /** The eligibility effect on a loaded cleanup: the error message it sets and the participant
      rows it loads. */
  function CheckEligibility(c: Cleanup): (r: Eligibility)
    ensures !DistributableStatus(c.status) ==> r == Eligibility(NotDistributableMessage(c.status), [BlankParticipant])
    ensures DistributableStatus(c.status) && c.rewardsDistributed ==>
              r == Eligibility(AlreadyDistributedMessage, [BlankParticipant])
    ensures DistributableStatus(c.status) && !c.rewardsDistributed && !c.proofOfWorkSubmitted ==>
              r == Eligibility(NoProofMessage, [BlankParticipant])
    ensures DistributableStatus(c.status) && !c.rewardsDistributed && c.proofOfWorkSubmitted &&
            AcceptedParticipants(c) == [] ==>
              r == Eligibility(NoAcceptedMessage, [BlankParticipant])
    ensures r.error == "" ==> r.rows == MapSeq(AcceptedParticipants(c), RewardRow)
  {
    if !DistributableStatus(c.status) then Eligibility(NotDistributableMessage(c.status), [BlankParticipant])
    else if c.rewardsDistributed then Eligibility(AlreadyDistributedMessage, [BlankParticipant])
    else if !c.proofOfWorkSubmitted then Eligibility(NoProofMessage, [BlankParticipant])
    else
      var accepted := AcceptedParticipants(c);
      if |accepted| > 0 then Eligibility("", MapSeq(accepted, RewardRow))
      else Eligibility(NoAcceptedMessage, [BlankParticipant])
  }

  /** Some participant of the cleanup was accepted. */
  predicate HasAccepted(c: Cleanup) {
    exists p :: p in c.participants && IsAccepted(p)
  }

  lemma AcceptedNonEmpty(c: Cleanup)
    ensures AcceptedParticipants(c) != [] <==> HasAccepted(c)
  {
    var acc := AcceptedParticipants(c);
    if HasAccepted(c) {
      var p :| p in c.participants && IsAccepted(p);
      assert p in acc;
    }
    if acc != [] {
      assert acc[0] in acc;
    }
  }

  /** A cleanup passes exactly when it is completed or rewarded, not yet rewarded, has proof
      of work, and has an accepted participant; otherwise one blank row is left. */
  lemma EligibilityExact(c: Cleanup)
    ensures CheckEligibility(c).error == "" <==>
              DistributableStatus(c.status) && !c.rewardsDistributed && c.proofOfWorkSubmitted && HasAccepted(c)
    ensures CheckEligibility(c).error != "" ==> CheckEligibility(c).rows == [BlankParticipant]
  {
    AcceptedNonEmpty(c);
    assert NotDistributableMessage(c.status) != "";
  }

  /** When a cleanup passes, one row is loaded per accepted participant, in order, each carrying
      that participant's address and reward (or "0"). */
  lemma EligibleRowsAreAccepted(c: Cleanup)
    requires CheckEligibility(c).error == ""
    ensures var rows := CheckEligibility(c).rows;
            var acc := AcceptedParticipants(c);
            |rows| == |acc| > 0 &&
            forall i :: 0 <= i < |rows| ==>
              rows[i].address == acc[i].participant &&
              rows[i].amount == OrElse(acc[i].rewardEarned, "0") &&
              IsAccepted(acc[i]) && acc[i] in c.participants
  {
    var acc := AcceptedParticipants(c);
    EligibilityExact(c);
    AcceptedNonEmpty(c);
    assert forall i :: 0 <= i < |acc| ==> acc[i] in acc;
  }

  // ---------------------------------------------------------------------------------------------
  // Validation filters

  function IsValidRecipient(positive: string -> bool): RewardRecipient -> bool {
    (r: RewardRecipient) => r.address != "" && r.amount != "" && positive(r.amount)
  }

  function IsValidParticipant(positive: string -> bool): ParticipantReward -> bool {
    (p: ParticipantReward) => p.address != "" && p.amount != "" && positive(p.amount)
  }

  function IsValidCartItem(positive: string -> bool): StreakCartContext.CartItem -> bool {
    (item: StreakCartContext.CartItem) => item.submissionId != "" && item.amount != "" && positive(item.amount)
  }

  const NoValidRecipientMessage := "Please add at least one valid recipient"
  const NoCleanupMessage := "Please load a cleanup first"
  const NoValidParticipantMessage := "Please add at least one valid participant"
  const EmptyCartMessage := "Please add at least one streak submission to the cart"
  const NoValidCartItemMessage := "Please ensure all cart items have valid amounts"

  /** `handleSendRewards`: the valid rows as parallel arrays, or an alert when there is none. */
  function SendPayload(rows: seq<RewardRecipient>, positive: string -> bool): (r: Action<SendRewardsParams>)
    ensures r.Alert? <==> forall i :: 0 <= i < |rows| ==> !IsValidRecipient(positive)(rows[i])
    ensures r.Alert? ==> r.message == NoValidRecipientMessage
    ensures r.Dispatch? ==>
              var valid := Filter(rows, IsValidRecipient(positive));
              |r.params.recipients| == |r.params.amounts| == |r.params.rewardTypes| == |valid| &&
              forall i :: 0 <= i < |valid| ==>
                r.params.recipients[i] == valid[i].address &&
                r.params.amounts[i] == valid[i].amount &&
                r.params.rewardTypes[i] == valid[i].rewardType
  {
    var valid := Filter(rows, IsValidRecipient(positive));
    if |valid| == 0 then
      ValidRowsEmpty(rows, IsValidRecipient(positive));
      Alert(NoValidRecipientMessage)
    else
      ValidRowsEmpty(rows, IsValidRecipient(positive));
      Dispatch(SendRewardsParams(MapSeq(valid, (v: RewardRecipient) => v.address),
                                 MapSeq(valid, (v: RewardRecipient) => v.amount),
                                 MapSeq(valid, (v: RewardRecipient) => v.rewardType)))
  }

  /** A filter keeps nothing exactly when no element passes it. */
  lemma {:induction false} ValidRowsEmpty<T>(s: seq<T>, p: T -> bool)
    ensures Filter(s, p) == [] <==> forall i :: 0 <= i < |s| ==> !p(s[i])
  {
    if s != [] {
      ValidRowsEmpty(s[1..], p);
      if p(s[0]) {
        assert s[0] in Filter(s, p);
      } else {
        assert forall i :: 1 <= i < |s| ==> s[i] == s[1..][i - 1];
      }
    }
  }

  /** The submitted arrays describe exactly the valid rows, in form order: rebuilding rows from
      them gives the filtered form, and every rebuilt row passes the filter. */
  lemma SendPayloadRebuildsValidRows(rows: seq<RewardRecipient>, positive: string -> bool)
    requires SendPayload(rows, positive).Dispatch?
    ensures var p := SendPayload(rows, positive).params;
            var rebuilt := seq(|p.recipients|, i requires 0 <= i < |p.recipients| =>
                                 RewardRecipient(p.recipients[i], p.amounts[i], p.rewardTypes[i]));
            rebuilt == Filter(rows, IsValidRecipient(positive)) &&
            forall i :: 0 <= i < |rebuilt| ==> IsValidRecipient(positive)(rebuilt[i])
  {
    var valid := Filter(rows, IsValidRecipient(positive));
    assert forall i :: 0 <= i < |valid| ==> valid[i] in valid;
  }

  /** `handleDistributeRewards`: refused without a loaded cleanup, then the valid participant
      rows as parallel arrays with the cleanup id as a number. */
  function DistributePayload(selectedCleanup: string, rows: seq<ParticipantReward>,
                             toNumber: string -> JsNumber, positive: string -> bool)
    : (r: Action<DistributeRewardsParams>)
    ensures selectedCleanup == "" ==> r == Alert(NoCleanupMessage)
    ensures selectedCleanup != "" && (forall i :: 0 <= i < |rows| ==> !IsValidParticipant(positive)(rows[i])) ==>
              r == Alert(NoValidParticipantMessage)
    ensures r.Dispatch? <==>
              selectedCleanup != "" && exists i :: 0 <= i < |rows| && IsValidParticipant(positive)(rows[i])
    ensures r.Dispatch? ==>
              var valid := Filter(rows, IsValidParticipant(positive));
              r.params.cleanupId == toNumber(selectedCleanup) &&
              |r.params.participants| == |r.params.amounts| == |valid| &&
              forall i :: 0 <= i < |valid| ==>
                r.params.participants[i] == valid[i].address && r.params.amounts[i] == valid[i].amount
  {
    if selectedCleanup == "" then Alert(NoCleanupMessage)
    else
      var valid := Filter(rows, IsValidParticipant(positive));
      ValidRowsEmpty(rows, IsValidParticipant(positive));
      if |valid| == 0 then Alert(NoValidParticipantMessage)
      else Dispatch(DistributeRewardsParams(toNumber(selectedCleanup),
                                            MapSeq(valid, (v: ParticipantReward) => v.address),
                                            MapSeq(valid, (v: ParticipantReward) => v.amount)))
  }

  /** `handleDistributeStreaksReward`: refused for an empty cart, then the valid items as
      parallel arrays in cart order. */
  function StreaksPayload(cart: seq<StreakCartContext.CartItem>, positive: string -> bool)
    : (r: Action<DistributeStreaksRewardParams>)
    ensures cart == [] ==> r == Alert(EmptyCartMessage)
    ensures cart != [] && (forall i :: 0 <= i < |cart| ==> !IsValidCartItem(positive)(cart[i])) ==>
              r == Alert(NoValidCartItemMessage)
    ensures r.Dispatch? <==> exists i :: 0 <= i < |cart| && IsValidCartItem(positive)(cart[i])
    ensures r.Dispatch? ==>
              var valid := Filter(cart, IsValidCartItem(positive));
              |r.params.submissionIds| == |r.params.amounts| == |valid| &&
              forall i :: 0 <= i < |valid| ==>
                r.params.submissionIds[i] == valid[i].submissionId && r.params.amounts[i] == valid[i].amount
  {
    if |cart| == 0 then Alert(EmptyCartMessage)
    else
      var valid := Filter(cart, IsValidCartItem(positive));
      ValidRowsEmpty(cart, IsValidCartItem(positive));
      if |valid| == 0 then Alert(NoValidCartItemMessage)
      else Dispatch(DistributeStreaksRewardParams(MapSeq(valid, (v: StreakCartContext.CartItem) => v.submissionId),
                                                  MapSeq(valid, (v: StreakCartContext.CartItem) => v.amount)))
  }

  /** The amount a page-cart item starts with: `amount || rewardAmount || "0"`, not converted. */
  function PageCartAmount(streak: StreakSubmission): (amount: string)
    ensures amount != ""
    ensures Truthy(streak.amount) ==> amount == streak.amount.value
    ensures !Truthy(streak.amount) && Truthy(streak.rewardAmount) ==> amount == streak.rewardAmount.value
    ensures !Truthy(streak.amount) && !Truthy(streak.rewardAmount) ==> amount == "0"
  {
    OrElse(streak.amount, OrElse(streak.rewardAmount, "0"))
  }

  /** `rows.filter((_, i) => i !== index)`. */
  function WithoutIndex<T>(rows: seq<T>, index: int): (r: seq<T>)
    ensures 0 <= index < |rows| ==> r == rows[..index] + rows[index + 1..]
    ensures !(0 <= index < |rows|) ==> r == rows
  {
    if 0 <= index < |rows| then rows[..index] + rows[index + 1..] else rows
  }

  /** The state of a cleanup query: still loading or disabled (undefined), not found (null), or
      found. */
  datatype CleanupData = Undefined | NotFound | Found(cleanup: Cleanup)

  // ---------------------------------------------------------------------------------------------
  // The page

  /** Checking an accepted id again accepts it unchanged. */
  lemma AcceptedIdIsStable(input: string, toNumber: string -> JsNumber)
    requires CheckCleanupId(input, toNumber).Accepted?
    ensures var id := CheckCleanupId(input, toNumber).id;
            CheckCleanupId(id, toNumber) == Accepted(id)
  {
    TrimIdempotent(input);
  }

  class RewardsManagerPage {
    const toNumber: string -> JsNumber
    const positive: string -> bool
    var showSendDialog: bool
    var showDistributeDialog: bool
    var showStreaksDialog: bool
    var recipients: seq<RewardRecipient>
    var cleanupIdInput: string
    var selectedCleanup: string
    var participantRewards: seq<ParticipantReward>
    var cleanupError: string
    var streakCart: seq<StreakCartContext.CartItem>

    /** The selection is empty or an id that passed `handleLoadCleanup`'s checks. */
    ghost predicate Valid()
      reads this
    {
      selectedCleanup == "" || CheckCleanupId(selectedCleanup, toNumber) == Accepted(selectedCleanup)
    }

    constructor (toNumber: string -> JsNumber, positive: string -> bool)
      ensures Valid()
      ensures this.toNumber == toNumber && this.positive == positive
      ensures !showSendDialog && !showDistributeDialog && !showStreaksDialog
      ensures recipients == [BlankRecipient] && participantRewards == [BlankParticipant]
      ensures cleanupIdInput == "" && selectedCleanup == "" && cleanupError == "" && streakCart == []
    {
      this.toNumber := toNumber;
      this.positive := positive;
      showSendDialog, showDistributeDialog, showStreaksDialog := false, false, false;
      recipients := [BlankRecipient];
      cleanupIdInput, selectedCleanup, cleanupError := "", "", "";
      participantRewards := [BlankParticipant];
      streakCart := [];
    }

    /** `handleLoadCleanup`: select the trimmed id, or set the error and keep the selection. */
    method LoadCleanup()
      requires Valid()
      modifies this`cleanupError, this`selectedCleanup
      ensures Valid()
      ensures var check := CheckCleanupId(old(cleanupIdInput), toNumber);
              (check.Accepted? ==> selectedCleanup == check.id && cleanupError == "") &&
              (check.Rejected? ==> selectedCleanup == old(selectedCleanup) && cleanupError == check.message)
    {
      var check := CheckCleanupId(cleanupIdInput, toNumber);
      if check.Rejected? {
        cleanupError := check.message;
      } else {
        AcceptedIdIsStable(cleanupIdInput, toNumber);
        cleanupError := "";
        selectedCleanup := check.id;
      }
    }

    /** The load-error effect. */
    method LoadErrorEffect(loadError: Option<string>)
      modifies this`cleanupError, this`participantRewards
      ensures loadError.Some? && old(selectedCleanup) != "" ==>
                cleanupError == "Failed to load cleanup: " + OrElse(loadError, "Cleanup not found") &&
                participantRewards == [BlankParticipant]
      ensures !(loadError.Some? && old(selectedCleanup) != "") ==>
                cleanupError == old(cleanupError) && participantRewards == old(participantRewards)
    {
      if loadError.Some? && selectedCleanup != "" {
        cleanupError := "Failed to load cleanup: " + OrElse(loadError, "Cleanup not found");
        participantRewards := [BlankParticipant];
      }
    }

    /** The not-found effect. */
    method NotFoundEffect(isLoading: bool, data: CleanupData, hasLoadError: bool)
      modifies this`cleanupError, this`participantRewards
      ensures selectedCleanup != "" && !isLoading && data.NotFound? && !hasLoadError ==>
                cleanupError == "Cleanup not found. Please check the cleanup ID and try again." &&
                participantRewards == [BlankParticipant]
      ensures !(selectedCleanup != "" && !isLoading && data.NotFound? && !hasLoadError) ==>
                cleanupError == old(cleanupError) && participantRewards == old(participantRewards)
    {
      if selectedCleanup != "" && !isLoading && data.NotFound? && !hasLoadError {
        cleanupError := "Cleanup not found. Please check the cleanup ID and try again.";
        participantRewards := [BlankParticipant];
      }
    }

    /** The eligibility effect: vet a loaded cleanup and load its accepted participants; with
        no selection, reset the rows (and the error unless a load error is showing). */
    method EligibilityEffect(data: CleanupData, isLoading: bool, hasLoadError: bool)
      modifies this`cleanupError, this`participantRewards
      ensures data.Found? && selectedCleanup != "" && !isLoading ==>
                Eligibility(cleanupError, participantRewards) == CheckEligibility(data.cleanup)
      ensures !(data.Found? && selectedCleanup != "" && !isLoading) && selectedCleanup == "" ==>
                participantRewards == [BlankParticipant] &&
                cleanupError == (if hasLoadError then old(cleanupError) else "")
      ensures !(data.Found? && selectedCleanup != "" && !isLoading) && selectedCleanup != "" ==>
                cleanupError == old(cleanupError) && participantRewards == old(participantRewards)
    {
      if data.Found? && selectedCleanup != "" && !isLoading {
        var r := CheckEligibility(data.cleanup);
        cleanupError := r.error;
        participantRewards := r.rows;
      } else if selectedCleanup == "" {
        participantRewards := [BlankParticipant];
        if !hasLoadError {
          cleanupError := "";
        }
      }
    }

    method AddRecipient()
      modifies this`recipients
      ensures recipients == old(recipients) + [BlankRecipient]
    {
      recipients := recipients + [BlankRecipient];
    }

    method RemoveRecipient(index: int)
      modifies this`recipients
      ensures recipients == WithoutIndex(old(recipients), index)
    {
      recipients := WithoutIndex(recipients, index);
    }

    /** `handleRecipientChange`: the row at `index` gets the edited field. */
    method RecipientChange(index: nat, edit: RecipientEdit)
      requires index < |recipients|
      modifies this`recipients
      ensures |recipients| == |old(recipients)|
      ensures recipients[index] == EditRecipient(old(recipients)[index], edit)
      ensures forall j :: 0 <= j < |recipients| && j != index ==> recipients[j] == old(recipients)[j]
    {
      var updated := recipients;
      updated := updated[index := EditRecipient(updated[index], edit)];
      recipients := updated;
    }

    method AddParticipant()
      modifies this`participantRewards
      ensures participantRewards == old(participantRewards) + [BlankParticipant]
    {
      participantRewards := participantRewards + [BlankParticipant];
    }

    method RemoveParticipant(index: int)
      modifies this`participantRewards
      ensures participantRewards == WithoutIndex(old(participantRewards), index)
    {
      participantRewards := WithoutIndex(participantRewards, index);
    }

    /** `handleParticipantChange`: the row at `index` gets the edited field. */
    method ParticipantChange(index: nat, edit: ParticipantEdit)
      requires index < |participantRewards|
      modifies this`participantRewards
      ensures |participantRewards| == |old(participantRewards)|
      ensures participantRewards[index] == EditParticipant(old(participantRewards)[index], edit)
      ensures forall j :: 0 <= j < |participantRewards| && j != index ==>
                participantRewards[j] == old(participantRewards)[j]
    {
      var updated := participantRewards;
      updated := updated[index := EditParticipant(updated[index], edit)];
      participantRewards := updated;
    }

    /** `handleSendRewards`: changes nothing itself; it alerts or starts the mutation. */
    method SendRewards() returns (action: Action<SendRewardsParams>)
      ensures action == SendPayload(recipients, positive)
      ensures action.Alert? <==> forall i :: 0 <= i < |recipients| ==> !IsValidRecipient(positive)(recipients[i])
    {
      action := SendPayload(recipients, positive);
    }

    /** The outcome of the send mutation: success closes the dialog and resets the form; an
        error only alerts. */
    method SettleSend(succeeded: bool)
      modifies this`showSendDialog, this`recipients
      ensures succeeded ==> !showSendDialog && recipients == [BlankRecipient]
      ensures !succeeded ==> showSendDialog == old(showSendDialog) && recipients == old(recipients)
    {
      if succeeded {
        showSendDialog := false;
        recipients := [BlankRecipient];
      }
    }

    /** `handleDistributeRewards`. With a valid selection the cleanup id always converts. */
    method DistributeRewards() returns (action: Action<DistributeRewardsParams>)
      requires Valid()
      ensures action == DistributePayload(selectedCleanup, participantRewards, toNumber, positive)
      ensures action.Dispatch? ==> IsPositiveInteger(action.params.cleanupId)
    {
      action := DistributePayload(selectedCleanup, participantRewards, toNumber, positive);
    }

    /** The outcome of the distribution: success resets the dialog, selection, input, rows and
        error. */
    method SettleDistribute(succeeded: bool)
      modifies this`showDistributeDialog, this`selectedCleanup, this`cleanupIdInput,
               this`participantRewards, this`cleanupError
      ensures Valid()
      ensures succeeded ==> !showDistributeDialog && selectedCleanup == "" && cleanupIdInput == "" &&
                            participantRewards == [BlankParticipant] && cleanupError == ""
      ensures !succeeded ==> showDistributeDialog == old(showDistributeDialog) &&
                             selectedCleanup == old(selectedCleanup) && cleanupIdInput == old(cleanupIdInput) &&
                             participantRewards == old(participantRewards) && cleanupError == old(cleanupError)
      requires Valid()
    {
      if succeeded {
        showDistributeDialog := false;
        selectedCleanup := "";
        cleanupIdInput := "";
        participantRewards := [BlankParticipant];
        cleanupError := "";
      }
    }

    /** `handleClearCleanup`. */
    method ClearCleanup()
      modifies this`selectedCleanup, this`cleanupIdInput, this`participantRewards, this`cleanupError
      ensures Valid()
      ensures selectedCleanup == "" && cleanupIdInput == "" && participantRewards == [BlankParticipant]
      ensures cleanupError == ""
    {
      selectedCleanup := "";
      cleanupIdInput := "";
      participantRewards := [BlankParticipant];
      cleanupError := "";
    }

    /** `handleAddToStreakCart`: a no-op for a duplicate id, otherwise append an item whose
        amount is the unconverted `PageCartAmount`. */
    method AddToStreakCart(streak: StreakSubmission)
      modifies this`streakCart
      ensures streakCart == StreakCartContext.Added(old(streakCart),
                                                    StreakCartContext.NewItem(streak, PageCartAmount(streak)))
    {
      streakCart := StreakCartContext.Added(streakCart, StreakCartContext.NewItem(streak, PageCartAmount(streak)));
    }

    method RemoveFromStreakCart(id: string)
      modifies this`streakCart
      ensures streakCart == StreakCartContext.Removed(old(streakCart), id)
    {
      streakCart := StreakCartContext.Removed(streakCart, id);
    }

    method ClearStreakCart()
      modifies this`streakCart
      ensures streakCart == []
    {
      streakCart := [];
    }

    method UpdateCartItemAmount(id: string, amount: string)
      modifies this`streakCart
      ensures streakCart == StreakCartContext.AmountUpdated(old(streakCart), id, amount)
    {
      streakCart := StreakCartContext.AmountUpdated(streakCart, id, amount);
    }

    /** `handleDistributeStreaksReward`. */
    method DistributeStreaksReward() returns (action: Action<DistributeStreaksRewardParams>)
      ensures action == StreaksPayload(streakCart, positive)
      ensures streakCart == [] ==> action == Alert(EmptyCartMessage)
    {
      action := StreaksPayload(streakCart, positive);
    }

    /** The outcome of the streak distribution: only success empties the cart. */
    method SettleStreaks(succeeded: bool)
      modifies this`showStreaksDialog, this`streakCart
      ensures succeeded ==> !showStreaksDialog && streakCart == []
      ensures !succeeded ==> showStreaksDialog == old(showStreaksDialog) && streakCart == old(streakCart)
    {
      if succeeded {
        showStreaksDialog := false;
        streakCart := [];
      }
    }
  }
}
