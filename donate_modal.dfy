/** The donation dialog: the amount check, the order of the submit steps,
    and which buttons are enabled. `parseFloat(amount)` is supplied alongside
    the text (`None` for NaN); the two server replies are parameters. */
module DonateModal {
  import opened Base
  import opened Text
  import opened Repositories
  import opened UserService
  import DonationService

  const MinimumDonation := 10.0
  const AmountRequired := "Amount is required"
  const AmountNotPositive := "Amount must be a positive number"
  const BelowMinimum := "Minimum donation amount is ₱10"
  const InsufficientWallet := "Insufficient wallet balance"

  /** `validateAmount`: the first failing check's message, or "" when the
      amount may be donated. */
  function ValidateAmount(amount: string, num: Option<real>, walletBalance: real): (r: string)
    ensures r == "" <==> !Blank(amount) && num.Some? && num.value >= MinimumDonation && num.value <= walletBalance
    ensures Blank(amount) ==> r == AmountRequired
    ensures !Blank(amount) && (num.None? || num.value <= 0.0) ==> r == AmountNotPositive
    ensures !Blank(amount) && num.Some? && 0.0 < num.value < MinimumDonation ==> r == BelowMinimum
    ensures !Blank(amount) && num.Some? && MinimumDonation <= num.value && num.value > walletBalance ==> r == InsufficientWallet
  {
    if Blank(amount) then AmountRequired
    else if num.None? || num.value <= 0.0 then AmountNotPositive
    else if num.value < MinimumDonation then BelowMinimum
    else if num.value > walletBalance then InsufficientWallet
    else ""
  }

  /** An amount equal to the whole balance is accepted once the balance
      reaches the minimum. */
  lemma WholeBalanceAccepted(amount: string, walletBalance: real)
    requires !Blank(amount) && walletBalance >= MinimumDonation
    ensures ValidateAmount(amount, Some(walletBalance), walletBalance) == ""
  {
  }

  /** With less than the minimum in the wallet no amount passes, so disabling
      the submit button loses nothing. */
  lemma LowBalanceRejectsAll(amount: string, num: Option<real>, walletBalance: real)
    requires walletBalance < MinimumDonation
    ensures ValidateAmount(amount, num, walletBalance) != ""
  {
  }

  /** An amount the dialog accepts against the stored balance passes every
      check of the backend's donation pipeline once the campaign exists. */
  lemma AcceptedAmountIsDonated(st: Store, amount: string, num: Option<real>, u: int, c: int, notes: Option<string>, now: int)
    requires u in st.users && c in st.campaigns
    requires ValidateAmount(amount, num, BalanceOf(st.users, u)) == ""
    ensures DonationService.Donate(st, Some(u), Some(c), num, notes, now).1.Donated?
    ensures BalanceOf(DonationService.Donate(st, Some(u), Some(c), num, notes, now).0.users, u) >= 0.0
  {
  }

  /** A JavaScript id is falsy when missing or 0. */
  predicate Present(id: Option<int>) {
    id.Some? && id.value != 0
  }

  /** What `handleSubmit` shows: a message under the amount field, the
      balance error the server check produced, or nothing. */
  datatype Message = Note(text: string) | BalanceShort(current: real, required: real)

  datatype BalanceReply = Checked(hasSufficientBalance: bool, currentBalance: real, requiredAmount: real) | CheckThrew

  /** `result.success` and `result.error`, or a thrown error's `message`. */
  datatype DonationReply = Replied(success: bool, error: string) | DonationThrew(message: string)

  datatype Call = CheckBalance(userId: int, amount: real) | ProcessDonation(userId: int, campaignId: int, amount: real, notes: string)

  datatype FormState = FormState(
    amount: string,
    errors: map<string, Message>,
    isLoading: bool,
    successMessage: string,
    walletBalance: real)

  const DonationSucceeded := "Donation successful! Thank you for your support."

  /** The checks `handleSubmit` makes before it contacts the server. */
  predicate LocalChecksPass(s: FormState, num: Option<real>, userId: Option<int>, campaignId: Option<int>) {
    ValidateAmount(s.amount, num, s.walletBalance) == "" && Present(userId) && Present(campaignId)
  }

  /** The message of the first local check that fails, or "" when all pass:
      the amount check, then the login, then the campaign. */
  function LocalError(s: FormState, num: Option<real>, userId: Option<int>, campaignId: Option<int>): (r: string)
    ensures r == "" <==> LocalChecksPass(s, num, userId, campaignId)
    ensures ValidateAmount(s.amount, num, s.walletBalance) != "" ==> r == ValidateAmount(s.amount, num, s.walletBalance)
  {
    var error := ValidateAmount(s.amount, num, s.walletBalance);
    if error != "" then error
    else if !Present(userId) then "User not logged in"
    else if !Present(campaignId) then "Campaign ID is required"
    else ""
  }

  /** The service calls made once the local checks pass: the balance check,
      then the donation only when the server reports enough funds. */
  function ServerCalls(userId: int, campaignId: int, a: real, campaignTitle: string, check: BalanceReply): (r: seq<Call>)
    ensures 1 <= |r| <= 2 && r[0] == CheckBalance(userId, a)
    ensures |r| == 2 <==> check.Checked? && check.hasSufficientBalance
    ensures |r| == 2 ==> r[1] == ProcessDonation(userId, campaignId, a, "Donation to " + campaignTitle)
  {
    [CheckBalance(userId, a)]
    + (if check.Checked? && check.hasSufficientBalance
       then [ProcessDonation(userId, campaignId, a, "Donation to " + campaignTitle)] else [])
  }

  /** The service calls the submit sequence makes: none unless every local
      check passes. */
  function SubmitCalls(s: FormState, num: Option<real>, userId: Option<int>, campaignId: Option<int>, campaignTitle: string,
                       check: BalanceReply): (r: seq<Call>)
    ensures |r| <= 2
    ensures |r| >= 1 <==> LocalChecksPass(s, num, userId, campaignId)
    ensures |r| == 2 <==> LocalChecksPass(s, num, userId, campaignId) && check.Checked? && check.hasSufficientBalance
    ensures |r| >= 1 ==> r[0] == CheckBalance(userId.value, num.value)
    ensures |r| == 2 ==> r[1] == ProcessDonation(userId.value, campaignId.value, num.value, "Donation to " + campaignTitle)
  {
    if !LocalChecksPass(s, num, userId, campaignId) then []
    else ServerCalls(userId.value, campaignId.value, num.value, campaignTitle, check)
  }

  /** The state the submit sequence leaves: the messages are cleared first,
      then set by the first step that fails. */
  function SubmitState(s: FormState, num: Option<real>, userId: Option<int>, campaignId: Option<int>,
                       check: BalanceReply, reply: DonationReply): (r: FormState)
    ensures r.amount == s.amount && r.walletBalance == s.walletBalance
    ensures ValidateAmount(s.amount, num, s.walletBalance) != "" ==>
      r == s.(errors := map["amount" := Note(ValidateAmount(s.amount, num, s.walletBalance))], successMessage := "")
    ensures !LocalChecksPass(s, num, userId, campaignId) ==>
      r == s.(errors := map["amount" := Note(LocalError(s, num, userId, campaignId))], successMessage := "")
    ensures r.successMessage != "" <==>
      LocalChecksPass(s, num, userId, campaignId) && check.Checked? && check.hasSufficientBalance && reply.Replied? && reply.success
    ensures r.successMessage != "" ==> r.successMessage == DonationSucceeded && r.errors == map[]
    ensures LocalChecksPass(s, num, userId, campaignId) ==>
      r == ServerOutcome(s.(errors := map[], successMessage := ""), check, reply)
  {
    var s1 := s.(errors := map[], successMessage := "");
    var error := LocalError(s, num, userId, campaignId);
    if error != "" then s1.(errors := map["amount" := Note(error)])
    else ServerOutcome(s1, check, reply)
  }

  /** The messages the two server replies leave, the loading flag cleared. */
  function ServerOutcome(s1: FormState, check: BalanceReply, reply: DonationReply): (r: FormState)
    requires s1.successMessage == ""
    ensures r.amount == s1.amount && r.walletBalance == s1.walletBalance && !r.isLoading
    ensures r.successMessage != "" <==> check.Checked? && check.hasSufficientBalance && reply.Replied? && reply.success
    ensures r.successMessage != "" ==> r.successMessage == DonationSucceeded && r.errors == s1.errors
    ensures check.CheckThrew? ==> r.errors == map["balance" := Note("Failed to check balance")] && r.successMessage == ""
    ensures check.Checked? && !check.hasSufficientBalance ==>
      r.errors == map["balance" := BalanceShort(check.currentBalance, check.requiredAmount)] && r.successMessage == ""
    ensures check.Checked? && check.hasSufficientBalance && reply.Replied? && !reply.success ==>
      r.errors == map["amount" := Note(OrText(Some(reply.error), "Donation failed"))] && r.successMessage == ""
    ensures check.Checked? && check.hasSufficientBalance && reply.DonationThrew? ==>
      r.errors == map["amount" := Note(OrText(Some(reply.message), "Failed to process donation"))] && r.successMessage == ""
  {
    match check
    case CheckThrew => s1.(errors := map["balance" := Note("Failed to check balance")], isLoading := false)
    case Checked(ok, current, required) =>
      if !ok then s1.(errors := map["balance" := BalanceShort(current, required)], isLoading := false)
      else
        match reply
        case Replied(true, _) => s1.(successMessage := DonationSucceeded, isLoading := false)
        case Replied(false, e) => s1.(errors := map["amount" := Note(OrText(Some(e), "Donation failed"))], isLoading := false)
        case DonationThrew(m) => s1.(errors := map["amount" := Note(OrText(Some(m), "Failed to process donation"))], isLoading := false)
  }

  /** A donation that is sent carries the parsed amount, which the dialog
      has checked lies between the minimum and the balance it showed, for a
      logged-in user. */
  lemma SentAmountInRange(s: FormState, num: Option<real>, userId: Option<int>, campaignId: Option<int>, campaignTitle: string,
                          check: BalanceReply)
    requires |SubmitCalls(s, num, userId, campaignId, campaignTitle, check)| == 2
    ensures var call := SubmitCalls(s, num, userId, campaignId, campaignTitle, check)[1];
      && num.Some? && !Blank(s.amount)
      && call.amount == num.value && MinimumDonation <= call.amount <= s.walletBalance
      && call.userId == userId.value && userId.value != 0 && call.campaignId != 0
  {
  }

  /** The dialog's state, set step by step by `handleSubmit`. */
  class DonateForm {
    var amount: string
    var errors: map<string, Message>
    var isLoading: bool
    var successMessage: string
    var walletBalance: real
    var calls: seq<Call>

    function State(): FormState
      reads this
    {
      FormState(amount, errors, isLoading, successMessage, walletBalance)
    }

    constructor (walletBalance: real)
      ensures State() == FormState("", map[], false, "", walletBalance) && calls == []
    {
      amount, errors, isLoading, successMessage := "", map[], false, "";
      this.walletBalance := walletBalance;
      calls := [];
    }

    /** `handleChange`: an amount error clears all errors; a balance error is
        then cleared too. */
    method HandleChange(value: string)
      modifies this
      ensures amount == value && calls == old(calls)
      ensures "amount" in old(errors) ==> errors == map[]
      ensures "amount" !in old(errors) && "balance" in old(errors) ==> errors == old(errors) - {"balance"}
      ensures "amount" !in old(errors) && "balance" !in old(errors) ==> errors == old(errors)
      ensures isLoading == old(isLoading) && successMessage == old(successMessage) && walletBalance == old(walletBalance)
    {
      amount := value;
      if "amount" in errors {
        errors := map[];
      }
      if "balance" in errors {
        errors := errors - {"balance"};
      }
    }

    method HandleSubmit(num: Option<real>, userId: Option<int>, campaignId: Option<int>, campaignTitle: string,
                        check: BalanceReply, reply: DonationReply)
      modifies this
      ensures State() == SubmitState(old(State()), num, userId, campaignId, check, reply)
      ensures calls == old(calls) + SubmitCalls(old(State()), num, userId, campaignId, campaignTitle, check)
    {
      ghost var s0 := State();
      var error := LocalError(State(), num, userId, campaignId);
      errors := map[];
      successMessage := "";
      if error != "" {
        errors := map["amount" := Note(error)];
        assert SubmitCalls(s0, num, userId, campaignId, campaignTitle, check) == [];
      } else {
        assert State() == s0.(errors := map[], successMessage := "");
        Contact(num.value, userId.value, campaignId.value, campaignTitle, check, reply);
      }
    }

    /** The part of `handleSubmit` that talks to the server. */
    method Contact(a: real, userId: int, campaignId: int, campaignTitle: string, check: BalanceReply, reply: DonationReply)
      requires successMessage == ""
      modifies this
      ensures State() == ServerOutcome(old(State()), check, reply)
      ensures calls == old(calls) + ServerCalls(userId, campaignId, a, campaignTitle, check)
    {
      isLoading := true;
      calls := calls + [CheckBalance(userId, a)];
      if check.CheckThrew? {
        errors := map["balance" := Note("Failed to check balance")];
      } else if !check.hasSufficientBalance {
        errors := map["balance" := BalanceShort(check.currentBalance, check.requiredAmount)];
      } else {
        calls := calls + [ProcessDonation(userId, campaignId, a, "Donation to " + campaignTitle)];
        match reply {
          case Replied(success, e) =>
            if success {
              successMessage := DonationSucceeded;
            } else {
              errors := map["amount" := Note(OrText(Some(e), "Donation failed"))];
            }
          case DonationThrew(m) =>
            errors := map["amount" := Note(OrText(Some(m), "Failed to process donation"))];
        }
      }
      isLoading := false;
    }
  }

  const QuickAmounts: seq<nat> := [100, 500, 1000]

  /** A quick-select button is disabled while busy or when it exceeds the balance. */
  predicate QuickSelectDisabled(amt: nat, isLoading: bool, checkingBalance: bool, walletBalance: real)
    ensures !QuickSelectDisabled(amt, isLoading, checkingBalance, walletBalance) && amt as real >= MinimumDonation ==>
      ValidateAmount(NatToString(amt), Some(amt as real), walletBalance) == ""
  {
    DigitsNotBlank(amt);
    isLoading || checkingBalance || amt as real > walletBalance
  }

  /** The submit button is disabled while busy, after success, or below the minimum. */
  predicate SubmitDisabled(isLoading: bool, checkingBalance: bool, successMessage: string, walletBalance: real)
    ensures !SubmitDisabled(isLoading, checkingBalance, successMessage, walletBalance) ==>
      ValidateAmount(NatToString(10), Some(MinimumDonation), walletBalance) == ""
  {
    DigitsNotBlank(10);
    isLoading || checkingBalance || successMessage != "" || walletBalance < MinimumDonation
  }

  lemma DigitsNotBlank(n: nat)
    ensures !Blank(NatToString(n))
  {
    var t := NatToString(n);
    BlankIffAllSpace(t);
    assert !IsSpace(t[0]);
  }

  /** Every enabled quick-select amount passes the amount check, and with the
      submit button enabled there is an amount that passes. */
  lemma EnabledButtonsAgree(amt: nat, walletBalance: real)
    requires amt in QuickAmounts && !QuickSelectDisabled(amt, false, false, walletBalance)
    ensures ValidateAmount(NatToString(amt), Some(amt as real), walletBalance) == ""
    ensures !SubmitDisabled(false, false, "", walletBalance)
  {
    assert amt == QuickAmounts[0] || amt == QuickAmounts[1] || amt == QuickAmounts[2];
    assert amt as real >= MinimumDonation;
    DigitsNotBlank(amt);
  }
}
