/** The "Withdraw Funds" page: the checks before `create_withdrawal` is
    called, the "Withdraw Maximum" prefill, and the page flags. */
module Withdraw {
  import opened Wrappers
  import opened JsNumber
  import opened Notices

  datatype WithdrawError = InvalidAmount | InsufficientBalance
  {
    function ErrorToast(): (t: Toast)
      ensures t.Error?
    {
      match this
      case InvalidAmount => Error("Invalid Amount", "Please enter a valid, positive amount.")
      case InsufficientBalance => Error("Insufficient Balance", "You cannot withdraw more than your available balance.")
    }
  }

  /** `handleWithdrawal`'s checks: a positive number first, then a loaded
      profile whose balance covers it; the whole balance may be withdrawn. */
  function ValidateWithdrawal(text: string, balance: Option<real>): (r: Result<real, WithdrawError>)
    ensures (ParseFloat(text).None? || ParseFloat(text).value <= 0.0) <==> r == Err(InvalidAmount)
    ensures r == Err(InsufficientBalance) <==>
      (ParseFloat(text).Some? && ParseFloat(text).value > 0.0
       && (balance.None? || ParseFloat(text).value > balance.value))
    ensures r.Ok? ==> Some(r.value) == ParseFloat(text) && balance.Some? && 0.0 < r.value <= balance.value
  {
    var amount := ParseFloat(text);
    if amount.None? || amount.value <= 0.0 then Err(InvalidAmount)
    else if balance.None? || amount.value > balance.value then Err(InsufficientBalance)
    else Ok(amount.value)
  }

  /** One submission: the amount sent to `create_withdrawal` (only when both
      checks pass), the notification, whether the page moves to
      `/dashboard`, and whether the loading flag was raised. */
  datatype Outcome = Outcome(requested: Option<real>, toast: Toast, toDashboard: bool, submitted: bool)

  function WithdrawalOutcome(text: string, balance: Option<real>, reply: Reply<()>): (o: Outcome)
    ensures o.requested.Some? <==> ValidateWithdrawal(text, balance).Ok?
    ensures o.requested.Some? ==> o.requested.value == ValidateWithdrawal(text, balance).value
    ensures o.submitted <==> o.requested.Some?
    ensures ValidateWithdrawal(text, balance).Err? ==> o.toast == ValidateWithdrawal(text, balance).error.ErrorToast()
    ensures o.toDashboard <==> o.requested.Some? && reply.Data?
    ensures o.requested.Some? && reply.Failed? ==> o.toast == Error("Withdrawal Failed", ErrorText(reply.message))
    ensures o.toDashboard ==> o.toast.Success?
  {
    match ValidateWithdrawal(text, balance)
    case Err(e) => Outcome(None, e.ErrorToast(), false, false)
    case Ok(amount) =>
      if reply.Failed? then Outcome(Some(amount), Error("Withdrawal Failed", ErrorText(reply.message)), false, true)
      else Outcome(Some(amount), Success("Withdrawal Successful", ""), true, true)
  }

  /** The text "Withdraw Maximum" writes, `available_balance.toString()`,
      parses back to the balance, so it passes the checks exactly when the
      balance is positive, and then requests the whole balance. */
  lemma MaximumRoundTrip(b: Decimal, reply: Reply<()>)
    ensures ParseFloat(DecimalText(b)) == Some(b.Value())
    ensures ValidateWithdrawal(DecimalText(b), Some(b.Value())).Ok? <==> b.Value() > 0.0
    ensures b.Value() > 0.0 ==> WithdrawalOutcome(DecimalText(b), Some(b.Value()), reply).requested == Some(b.Value())
  {
    ParseDecimalText(b);
  }

  class WithdrawPage {
    var amount: string
    /** The loaded balance, as the decimal number the profile holds. */
    var profile: Option<Decimal>
    var isLoading: bool
    var isPageLoading: bool

    constructor ()
      ensures amount == "" && profile.None? && !isLoading && isPageLoading
    {
      amount := "";
      profile := None;
      isLoading := false;
      isPageLoading := true;
    }

    function Balance(): Option<real>
      reads this
    {
      if profile.Some? then Some(profile.value.Value()) else None
    }

    /** `fetchProfile` finishing: a signed-in user's reply sets the profile or
        reports; the page stops loading either way. */
    method ProfileLoaded(signedIn: bool, reply: Reply<Decimal>) returns (t: Option<Toast>)
      modifies this
      ensures !isPageLoading
      ensures signedIn && reply.Data? ==> profile == Some(reply.data) && t.None?
      ensures signedIn && reply.Failed? ==> profile == old(profile) && t == Some(Error("Failed to load balance", reply.message))
      ensures !signedIn ==> profile == old(profile) && t.None?
      ensures amount == old(amount) && isLoading == old(isLoading)
    {
      t := None;
      if signedIn {
        if reply.Data? {
          profile := Some(reply.data);
        } else {
          t := Some(Error("Failed to load balance", reply.message));
        }
      }
      isPageLoading := false;
    }

    /** The "Withdraw Maximum" control: with a profile, the amount becomes the
        balance's text; without one nothing happens. */
    method WithdrawMaximum()
      modifies this
      ensures old(profile).Some? ==> amount == DecimalText(old(profile).value)
      ensures old(profile).None? ==> amount == old(amount)
      ensures profile == old(profile) && isLoading == old(isLoading) && isPageLoading == old(isPageLoading)
    {
      if profile.Some? {
        amount := DecimalText(profile.value);
      }
    }

    /** `handleWithdrawal`: the outcome above on the page's amount and balance;
        the loading flag is false again after every attempt. */
    method HandleWithdrawal(reply: Reply<()>) returns (o: Outcome)
      modifies this
      ensures o == WithdrawalOutcome(old(amount), old(Balance()), reply)
      ensures o.submitted ==> !isLoading
      ensures !o.submitted ==> isLoading == old(isLoading)
      ensures amount == old(amount) && profile == old(profile) && isPageLoading == old(isPageLoading)
    {
      o := WithdrawalOutcome(amount, Balance(), reply);
      if !o.submitted {
        return;
      }
      isLoading := true;
      isLoading := false;
    }
  }
}
