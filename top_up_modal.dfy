/** The top-up dialog: the amount check and the simulated submit, which never
    reaches the wallet service. `parseFloat(amount)` is supplied alongside the
    text (`None` for NaN). */
module TopUpModal {
  import opened Base
  import opened Text
  import DonateModal

  const AmountRequired := "Amount is required"
  const AmountNotPositive := "Amount must be a positive number"
  const TopUpSucceeded := "Top up successful!"

  /** `validateAmount`: "" exactly for a non-blank amount that parses to a
      positive number. */
  function ValidateAmount(amount: string, num: Option<real>): (r: string)
    ensures r == "" <==> !Blank(amount) && num.Some? && num.value > 0.0
    ensures r != "" ==> r == (if Blank(amount) then AmountRequired else AmountNotPositive)
  {
    if Blank(amount) then AmountRequired
    else if num.None? || num.value <= 0.0 then AmountNotPositive
    else ""
  }

  /** There is no upper bound: above any bound some amount is accepted. */
  lemma NoUpperBound(amount: string, bound: real)
    requires !Blank(amount)
    ensures exists x :: x > bound && ValidateAmount(amount, Some(x)) == ""
  {
    var x := if bound > 0.0 then bound + 1.0 else 1.0;
    assert ValidateAmount(amount, Some(x)) == "";
  }

  /** Every amount the donation dialog accepts would also be accepted as a
      top-up, and the two dialogs use the same words for the shared checks. */
  lemma DonationRulesStricter(amount: string, num: Option<real>, walletBalance: real)
    ensures DonateModal.ValidateAmount(amount, num, walletBalance) == "" ==> ValidateAmount(amount, num) == ""
    ensures ValidateAmount(amount, num) != "" ==> DonateModal.ValidateAmount(amount, num, walletBalance) == ValidateAmount(amount, num)
  {
  }

  /** The dialog's state. The class touches no store, so a top-up made here
      never changes a wallet balance. */
  class TopUpForm {
    var amount: string
    var errors: map<string, string>
    var isLoading: bool
    var successMessage: string

    constructor ()
      ensures amount == "" && errors == map[] && !isLoading && successMessage == ""
    {
      amount, errors, isLoading, successMessage := "", map[], false, "";
    }

    /** `handleChange`: editing clears an amount error. */
    method HandleChange(value: string)
      modifies this
      ensures amount == value && isLoading == old(isLoading) && successMessage == old(successMessage)
      ensures errors == if "amount" in old(errors) then map[] else old(errors)
    {
      amount := value;
      if "amount" in errors {
        errors := map[];
      }
    }

    /** `handleSubmit` up to the first timer: a rejected amount stops before
        the loading or success state is touched. */
    method HandleSubmit(num: Option<real>)
      modifies this`errors, this`isLoading, this`successMessage
      ensures successMessage == ""
      ensures ValidateAmount(amount, num) != "" ==>
                errors == map["amount" := ValidateAmount(amount, num)] && isLoading == old(isLoading)
      ensures ValidateAmount(amount, num) == "" ==> errors == map[] && isLoading
    {
      errors, successMessage := map[], "";
      var ok := Validate(num);
      if ok {
        isLoading := true;
      }
    }

    /** The amount check: records its message, if any, and answers whether
        the amount passed. */
    method Validate(num: Option<real>) returns (ok: bool)
      modifies this`errors
      ensures ok <==> ValidateAmount(amount, num) == ""
      ensures errors == if ok then old(errors) else map["amount" := ValidateAmount(amount, num)]
    {
      var error := ValidateAmount(amount, num);
      ok := error == "";
      if !ok {
        errors := map["amount" := error];
      }
    }

    /** The first timer: the simulated reply always reports success. */
    method SimulatedReply()
      modifies this
      ensures successMessage == TopUpSucceeded && !isLoading
      ensures amount == old(amount) && errors == old(errors)
    {
      successMessage := TopUpSucceeded;
      isLoading := false;
    }
  }
}
