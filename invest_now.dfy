/** The "Invest Now" page: choosing a plan, the two ways of paying for it
    (from the wallet balance, or by a crypto deposit with a proof of payment),
    the checks that run before anything is written, and the rows written. */
module InvestNow {
  import opened Wrappers
  import opened Text
  import opened JsNumber
  import opened Notices
  import opened Investments
  import Lists
  import Progress

  /** An `investment_plans` row. */
  datatype Plan = Plan(id: nat, name: string, minAmount: real, maxAmount: real,
                       dailyRate: real, durationDays: int)

  /** An enabled `cryptocurrencies` row. */
  datatype Crypto = Crypto(id: nat, name: string, network: string)

  /** `plans.find(plan => String(plan.id) === selectedPlanId)`; nothing is
      selected while the id is `null`. */
  function SelectedPlan(plans: seq<Plan>, selectedId: Option<string>): (r: Option<Plan>)
    ensures selectedId.None? ==> r.None?
    ensures r.Some? ==> r.value in plans && selectedId == Some(NatToString(r.value.id))
    ensures selectedId.Some? && r.None? ==>
      forall i :: 0 <= i < |plans| ==> NatToString(plans[i].id) != selectedId.value
  {
    if selectedId.None? then None
    else Lists.Find(plans, (p: Plan) => NatToString(p.id) == selectedId.value)
  }

  /** Distinct numbers have distinct decimal texts. */
  lemma NatToStringInjective(a: nat, b: nat)
    requires NatToString(a) == NatToString(b)
    ensures a == b
  {
    assert a == DigitsValue(NatToString(a));
  }

  /** With distinct plan ids, choosing a listed plan in the selector (whose
      item value is `String(plan.id)`) selects exactly that plan. */
  lemma SelectorSelectsPlan(plans: seq<Plan>, i: int)
    requires 0 <= i < |plans|
    requires forall j, k :: 0 <= j < |plans| && 0 <= k < |plans| && plans[j].id == plans[k].id ==> j == k
    ensures SelectedPlan(plans, Some(NatToString(plans[i].id))) == Some(plans[i])
  {
    var r := SelectedPlan(plans, Some(NatToString(plans[i].id)));
    assert r.Some?;
    var j :| 0 <= j < |plans| && plans[j] == r.value;
    NatToStringInjective(plans[j].id, plans[i].id);
  }

  /** The reasons an investment is refused before any backend call, in the
      order the handlers test them. */
  datatype InvestError =
    | NoPlanSelected
    | InvalidAmount
    | InsufficientBalance
    | OutsidePlanBounds(min: real, max: real)
    | CryptoNotSelected
    | ProofMissing
  {
    /** The error notification; the bounds message is formatted currency and
        its text is not modelled. */
    function ErrorToast(): (t: Toast)
      ensures t.Error?
    {
      match this
      case NoPlanSelected => Error("No Plan Selected", "Please select an investment plan.")
      case InvalidAmount => Error("Invalid Amount", "Please enter a valid positive investment amount.")
      case InsufficientBalance => Error("Insufficient Balance", "You do not have enough funds in your wallet.")
      case OutsidePlanBounds(_, _) => Error("Invalid Amount", "")
      case CryptoNotSelected => Error("Cryptocurrency Not Selected", "Please select a cryptocurrency for payment.")
      case ProofMissing => Error("Proof of Payment Missing", "Please upload proof of your payment.")
    }
  }

  /** `parseFloat(investAmount)` is a number and positive. */
  predicate PositiveAmount(text: string) {
    ParseFloat(text).Some? && ParseFloat(text).value > 0.0
  }

  /** The plan's bounds are inclusive at both ends. */
  predicate WithinPlan(plan: Plan, amount: real) {
    plan.minAmount <= amount <= plan.maxAmount
  }

  /** `handleInvestFromBalance`'s checks: plan, then a positive number, then a
      known balance that covers it, then the plan bounds; the first failing
      check is the one reported, and a pass yields the parsed amount. */
  function ValidateFromBalance(plan: Option<Plan>, text: string, balance: Option<real>): (r: Result<real, InvestError>)
    ensures plan.None? <==> r == Err(NoPlanSelected)
    ensures r == Err(InvalidAmount) <==> plan.Some? && !PositiveAmount(text)
    ensures r == Err(InsufficientBalance) <==>
      plan.Some? && PositiveAmount(text) && (balance.None? || ParseFloat(text).value > balance.value)
    ensures r.Err? && r.error.OutsidePlanBounds? ==> plan.Some? && r.error == OutsidePlanBounds(plan.value.minAmount, plan.value.maxAmount)
    ensures plan.Some? ==>
      (r == Err(OutsidePlanBounds(plan.value.minAmount, plan.value.maxAmount)) <==>
         PositiveAmount(text) && balance.Some? && ParseFloat(text).value <= balance.value
         && !WithinPlan(plan.value, ParseFloat(text).value))
    ensures r.Err? ==> !r.error.CryptoNotSelected? && !r.error.ProofMissing?
    ensures r.Ok? <==> (plan.Some? && PositiveAmount(text) && balance.Some?
                        && ParseFloat(text).value <= balance.value && WithinPlan(plan.value, ParseFloat(text).value))
    ensures r.Ok? ==> Some(r.value) == ParseFloat(text)
  {
    if plan.None? then Err(NoPlanSelected)
    else
      var amount := ParseFloat(text);
      if amount.None? || amount.value <= 0.0 then Err(InvalidAmount)
      else if balance.None? || amount.value > balance.value then Err(InsufficientBalance)
      else if !WithinPlan(plan.value, amount.value) then
        Err(OutsidePlanBounds(plan.value.minAmount, plan.value.maxAmount))
      else Ok(amount.value)
  }

  /** `handleInvestViaDeposit`'s checks: plan, then a positive number, then the
      plan bounds, then a chosen cryptocurrency, then a proof file. The
      balance is not consulted. */
  function ValidateViaDeposit(plan: Option<Plan>, text: string, cryptoId: string, proof: Option<string>): (r: Result<real, InvestError>)
    ensures plan.None? <==> r == Err(NoPlanSelected)
    ensures r == Err(InvalidAmount) <==> plan.Some? && !PositiveAmount(text)
    ensures plan.Some? && PositiveAmount(text) ==>
      (r.Err? && r.error.OutsidePlanBounds? <==> !WithinPlan(plan.value, ParseFloat(text).value))
    ensures r.Err? && r.error.OutsidePlanBounds? ==> plan.Some? && r.error == OutsidePlanBounds(plan.value.minAmount, plan.value.maxAmount)
    ensures r == Err(CryptoNotSelected) <==>
      plan.Some? && PositiveAmount(text) && WithinPlan(plan.value, ParseFloat(text).value) && cryptoId == ""
    ensures r == Err(ProofMissing) <==>
      plan.Some? && PositiveAmount(text) && WithinPlan(plan.value, ParseFloat(text).value) && cryptoId != ""
      && proof.None?
    ensures r.Err? ==> !r.error.InsufficientBalance?
    ensures r.Ok? <==> (plan.Some? && PositiveAmount(text) && WithinPlan(plan.value, ParseFloat(text).value)
                        && cryptoId != "" && proof.Some?)
    ensures r.Ok? ==> Some(r.value) == ParseFloat(text)
  {
    if plan.None? then Err(NoPlanSelected)
    else
      var amount := ParseFloat(text);
      if amount.None? || amount.value <= 0.0 then Err(InvalidAmount)
      else if !WithinPlan(plan.value, amount.value) then
        Err(OutsidePlanBounds(plan.value.minAmount, plan.value.maxAmount))
      else if cryptoId == "" then Err(CryptoNotSelected)
      else if proof.None? then Err(ProofMissing)
      else Ok(amount.value)
  }

  /** An amount that passes the balance path leaves a non-negative balance
      strictly below the old one. */
  lemma FromBalanceLeavesNonNegative(plan: Option<Plan>, text: string, balance: Option<real>)
    requires ValidateFromBalance(plan, text, balance).Ok?
    ensures balance.Some?
    ensures 0.0 <= balance.value - ValidateFromBalance(plan, text, balance).value < balance.value
  {
  }

  /** Investing the whole balance is allowed, and empties the wallet. */
  lemma WholeBalanceAccepted(plan: Plan, b: Decimal)
    requires b.Value() > 0.0 && WithinPlan(plan, b.Value())
    ensures ValidateFromBalance(Some(plan), DecimalText(b), Some(b.Value())) == Ok(b.Value())
  {
    ParseDecimalText(b);
  }

  /** Both plan bounds are themselves acceptable amounts on either path. */
  lemma BoundsInclusive(plan: Plan, m: Decimal, cryptoId: string, proof: string)
    requires m.Value() > 0.0 && plan.minAmount <= plan.maxAmount
    requires m.Value() == plan.minAmount || m.Value() == plan.maxAmount
    requires cryptoId != ""
    ensures ValidateFromBalance(Some(plan), DecimalText(m), Some(plan.maxAmount)) == Ok(m.Value())
    ensures ValidateViaDeposit(Some(plan), DecimalText(m), cryptoId, Some(proof)) == Ok(m.Value())
  {
    ParseDecimalText(m);
  }

  /** `depositButtonDisabled`; the amount plays no part. */
  predicate DepositButtonDisabled(isSubmitting: bool, proof: Option<string>, cryptoId: string, plan: Option<Plan>) {
    isSubmitting || proof.None? || cryptoId == "" || plan.None?
  }

  /** `balanceButtonDisabled`: a `NaN` amount compares false and a missing
      profile does not disable. */
  predicate BalanceButtonDisabled(isSubmitting: bool, plan: Option<Plan>, text: string, balance: Option<real>) {
    isSubmitting || plan.None? || text == ""
    || (balance.Some? && ParseFloat(text).Some? && ParseFloat(text).value > balance.value)
  }

  /** Once the deposit button is enabled, only the amount checks can still
      refuse the deposit. */
  lemma DepositEnabledLeavesAmountChecks(plan: Option<Plan>, text: string, cryptoId: string, proof: Option<string>)
    requires !DepositButtonDisabled(false, proof, cryptoId, plan)
    ensures var r := ValidateViaDeposit(plan, text, cryptoId, proof);
            r.Ok? || r == Err(InvalidAmount) || r.error.OutsidePlanBounds?
  {
  }

  /** An amount the balance path accepts never finds its button disabled,
      unless a submission is under way. */
  lemma AcceptedBalanceEnablesButton(plan: Option<Plan>, text: string, balance: Option<real>)
    requires ValidateFromBalance(plan, text, balance).Ok?
    ensures !BalanceButtonDisabled(false, plan, text, balance)
  {
  }

  /** The button can be enabled while the handler still refuses: with no
      profile loaded, a plan and an amount leave the balance button enabled,
      and the click reports an insufficient balance. */
  lemma NoProfileEnabledYetRefused(plan: Plan)
    requires WithinPlan(plan, 5.0)
    ensures !BalanceButtonDisabled(false, Some(plan), "5", None)
    ensures ValidateFromBalance(Some(plan), "5", None) == Err(InsufficientBalance)
  {
    ParseNatText(5);
    assert NatToString(5) == "5";
  }

  datatype Handler = FromBalance | ViaDeposit

  /** `handleInvest`: the balance handler exactly for the `"balance"` tab. */
  function Route(investmentMethod: string): (h: Handler)
    ensures h == FromBalance <==> investmentMethod == "balance"
  {
    if investmentMethod == "balance" then FromBalance else ViaDeposit
  }

  /** The Invest button's `disabled`: the deposit predicate on the `"deposit"`
      tab, the balance predicate otherwise. */
  predicate InvestButtonDisabled(investmentMethod: string, isSubmitting: bool, plan: Option<Plan>,
                                 text: string, balance: Option<real>, cryptoId: string, proof: Option<string>) {
    if investmentMethod == "deposit" then DepositButtonDisabled(isSubmitting, proof, cryptoId, plan)
    else BalanceButtonDisabled(isSubmitting, plan, text, balance)
  }

  /** On both tabs the button is governed by the predicate of the handler the
      click runs. */
  lemma ButtonMatchesHandler(investmentMethod: string, isSubmitting: bool, plan: Option<Plan>,
                             text: string, balance: Option<real>, cryptoId: string, proof: Option<string>)
    requires investmentMethod == "deposit" || investmentMethod == "balance"
    ensures InvestButtonDisabled(investmentMethod, isSubmitting, plan, text, balance, cryptoId, proof)
            == if Route(investmentMethod) == FromBalance then BalanceButtonDisabled(isSubmitting, plan, text, balance)
               else DepositButtonDisabled(isSubmitting, proof, cryptoId, plan)
  {
  }

  /** The `investments` row a handler inserts; dates in milliseconds. */
  datatype NewInvestment = NewInvestment(userId: string, planId: nat, amount: real, status: Status,
                                         start: int, end: int, cryptoType: Option<string>,
                                         proofUrl: Option<string>)

  /** The row of the balance path: active at once, ending `duration_days`
      days after `now`. */
  function BalanceInvestment(user: string, plan: Plan, amount: real, now: int): (row: NewInvestment)
    ensures row.status == Active && row.start == now
    ensures row.end - row.start == plan.durationDays * MsPerDay
    ensures row.userId == user && row.planId == plan.id && row.amount == amount
    ensures row.cryptoType.None? && row.proofUrl.None?
  {
    NewInvestment(user, plan.id, amount, Active, now, TermEnd(now, plan.durationDays), None, None)
  }

  /** The row of the deposit path: pending approval, with the same term and
      the payment details. */
  function DepositInvestment(user: string, plan: Plan, amount: real, now: int,
                             cryptoType: string, proofUrl: string): (row: NewInvestment)
    ensures row.status == Pending && row.start == now
    ensures row.end - row.start == plan.durationDays * MsPerDay
    ensures row.userId == user && row.planId == plan.id && row.amount == amount
    ensures row.cryptoType == Some(cryptoType) && row.proofUrl == Some(proofUrl)
  {
    NewInvestment(user, plan.id, amount, Pending, now, TermEnd(now, plan.durationDays),
                  Some(cryptoType), Some(proofUrl))
  }

  /** A row written at `now` on a plan of positive duration shows 0 progress
      at once and 100 when its term is over. */
  lemma FreshInvestmentProgress(row: NewInvestment, plan: Plan, later: int)
    requires row.end - row.start == plan.durationDays * MsPerDay && plan.durationDays > 0
    ensures Progress.CalculateProgress(Some(row.start), Some(row.end), row.start) == 0
    ensures later >= row.start + plan.durationDays * MsPerDay ==>
      Progress.CalculateProgress(Some(row.start), Some(row.end), later) == 100
  {
  }

  /** `crypto_type`: "name (network)" of the chosen coin; with no match the
      template prints `undefined` for both. */
  function CryptoLabel(cryptos: seq<Crypto>, cryptoId: string): (s: string)
    ensures var found := Lists.Find(cryptos, (c: Crypto) => NatToString(c.id) == cryptoId);
      && (found.None? ==> s == "undefined (undefined)")
      && (found.Some? ==> found.value in cryptos && NatToString(found.value.id) == cryptoId
                          && s == found.value.name + " (" + found.value.network + ")")
  {
    match Lists.Find(cryptos, (c: Crypto) => NatToString(c.id) == cryptoId)
    case Some(c) => c.name + " (" + c.network + ")"
    case None => "undefined (undefined)"
  }

  /** A write the page asks of the backend, in the order issued. */
  datatype Call =
    | InsertInvestment(row: NewInvestment)
    | SetBalance(userId: string, balance: real)
    | UploadProof(userId: string)

  const FailedTitle: string := "Investment Failed"

  /** What one click of a handler does: the writes issued in order, the
      notification, whether it succeeded (the inputs are then cleared and the
      data re-fetched), and whether it got past the checks (so the submitting
      flag was raised, and lowered again at the end). */
  datatype Outcome = Outcome(calls: seq<Call>, toast: Toast, succeeded: bool, submitted: bool)

  /** `handleInvestFromBalance` at time `now`, given the signed-in user and the
      replies of the insert and of the balance update. */
  function FromBalanceOutcome(plan: Option<Plan>, text: string, balance: Option<real>, now: int,
                              user: Option<string>, insertReply: Reply<()>, updateReply: Reply<()>): (o: Outcome)
    ensures var v := ValidateFromBalance(plan, text, balance);
      && (v.Err? ==> o == Outcome([], v.error.ErrorToast(), false, false))
      && (v.Ok? ==> o.submitted)
      && (v.Ok? && user.None? ==> o == Outcome([], Error(FailedTitle, "User not authenticated."), false, true))
      && (v.Ok? && user.Some? ==>
            |o.calls| >= 1 && o.calls[0] == InsertInvestment(BalanceInvestment(user.value, plan.value, v.value, now)))
      && (v.Ok? && user.Some? && insertReply.Failed? ==>
            o == Outcome([InsertInvestment(BalanceInvestment(user.value, plan.value, v.value, now))],
                         Error(FailedTitle, ErrorText(insertReply.message)), false, true))
      && (v.Ok? && user.Some? && insertReply.Data? ==>
            o.calls == [InsertInvestment(BalanceInvestment(user.value, plan.value, v.value, now)),
                        SetBalance(user.value, balance.value - v.value)])
      && (v.Ok? && user.Some? && insertReply.Data? && updateReply.Failed? ==>
            o.toast == Error(FailedTitle, ErrorText(updateReply.message)))
      && (o.succeeded <==> v.Ok? && user.Some? && insertReply.Data? && updateReply.Data?)
      && (o.succeeded ==> o.toast.Success?)
      && (!o.succeeded ==> o.toast.Error?)
    ensures forall i :: 0 <= i < |o.calls| && o.calls[i].SetBalance? ==>
      i == 1 && insertReply.Data? && o.calls[0].InsertInvestment? && o.calls[0].row.status == Active
      && balance.Some? && o.calls[i].balance == balance.value - o.calls[0].row.amount
      && 0.0 <= o.calls[i].balance < balance.value
    ensures insertReply.Failed? ==> |o.calls| <= 1
  {
    var v := ValidateFromBalance(plan, text, balance);
    if v.Err? then Outcome([], v.error.ErrorToast(), false, false)
    else if user.None? then Outcome([], Error(FailedTitle, "User not authenticated."), false, true)
    else
      var insert := InsertInvestment(BalanceInvestment(user.value, plan.value, v.value, now));
      if insertReply.Failed? then Outcome([insert], Error(FailedTitle, ErrorText(insertReply.message)), false, true)
      else
        var calls := [insert, SetBalance(user.value, balance.value - v.value)];
        if updateReply.Failed? then Outcome(calls, Error(FailedTitle, ErrorText(updateReply.message)), false, true)
        else Outcome(calls, Success("Investment Successful!", ""), true, true)
  }

  /** `handleInvestViaDeposit` at time `now`, given the signed-in user, the
      upload reply, the proof's public address and the insert reply. */
  function ViaDepositOutcome(plan: Option<Plan>, text: string, cryptos: seq<Crypto>, cryptoId: string,
                             proof: Option<string>, now: int, user: Option<string>,
                             uploadReply: Reply<()>, publicUrl: string, insertReply: Reply<()>): (o: Outcome)
    ensures var v := ValidateViaDeposit(plan, text, cryptoId, proof);
      && (v.Err? ==> o == Outcome([], v.error.ErrorToast(), false, false))
      && (v.Ok? ==> o.submitted)
      && (v.Ok? && user.None? ==> o == Outcome([], Error(FailedTitle, "User not authenticated."), false, true))
      && (v.Ok? && user.Some? ==> |o.calls| >= 1 && o.calls[0] == UploadProof(user.value))
      && (v.Ok? && user.Some? && uploadReply.Data? ==>
            o.calls == [UploadProof(user.value),
                        InsertInvestment(DepositInvestment(user.value, plan.value, v.value, now,
                                                           CryptoLabel(cryptos, cryptoId), publicUrl))])
      && (o.succeeded <==> v.Ok? && user.Some? && uploadReply.Data? && insertReply.Data?)
      && (o.succeeded ==> o.toast.Success?)
      && (!o.succeeded ==> o.toast.Error?)
    ensures forall i :: 0 <= i < |o.calls| ==> !o.calls[i].SetBalance?
    ensures uploadReply.Failed? ==> |o.calls| <= 1
  {
    var v := ValidateViaDeposit(plan, text, cryptoId, proof);
    if v.Err? then Outcome([], v.error.ErrorToast(), false, false)
    else if user.None? then Outcome([], Error(FailedTitle, "User not authenticated."), false, true)
    else if uploadReply.Failed? then
      Outcome([UploadProof(user.value)], Error(FailedTitle, ErrorText(uploadReply.message)), false, true)
    else
      var row := DepositInvestment(user.value, plan.value, v.value, now, CryptoLabel(cryptos, cryptoId), publicUrl);
      var calls := [UploadProof(user.value), InsertInvestment(row)];
      if insertReply.Failed? then Outcome(calls, Error(FailedTitle, ErrorText(insertReply.message)), false, true)
      else Outcome(calls, Success("Investment Submitted!", ""), true, true)
  }

  class InvestNowPage {
    var plans: seq<Plan>
    var cryptos: seq<Crypto>
    var balance: Option<real>
    var selectedPlanId: Option<string>
    var investAmount: string
    var selectedCryptoId: string
    var proof: Option<string>
    var isSubmitting: bool
    var investmentMethod: string

    constructor ()
      ensures plans == [] && cryptos == [] && balance.None? && selectedPlanId.None?
      ensures investAmount == "" && selectedCryptoId == "" && proof.None?
      ensures !isSubmitting && investmentMethod == "deposit"
    {
      plans := [];
      cryptos := [];
      balance := None;
      selectedPlanId := None;
      investAmount := "";
      selectedCryptoId := "";
      proof := None;
      isSubmitting := false;
      investmentMethod := "deposit";
    }

    function Selected(): Option<Plan>
      reads this
    {
      SelectedPlan(plans, selectedPlanId)
    }

    /** The plan selector and the payment tabs. */
    method ChoosePlan(id: string)
      modifies this
      ensures selectedPlanId == Some(id)
      ensures plans == old(plans) && cryptos == old(cryptos) && balance == old(balance)
      ensures investAmount == old(investAmount) && selectedCryptoId == old(selectedCryptoId) && proof == old(proof)
      ensures isSubmitting == old(isSubmitting) && investmentMethod == old(investmentMethod)
    {
      selectedPlanId := Some(id);
    }

    method ChooseMethod(m: string)
      modifies this
      ensures investmentMethod == m
      ensures plans == old(plans) && cryptos == old(cryptos) && balance == old(balance)
      ensures selectedPlanId == old(selectedPlanId) && investAmount == old(investAmount)
      ensures selectedCryptoId == old(selectedCryptoId) && proof == old(proof) && isSubmitting == old(isSubmitting)
    {
      investmentMethod := m;
    }

    /** `handleInvestFromBalance`: the outcome above on the page's inputs; the
        plan and amount are cleared only on success, the submitting flag is
        lowered on every path that raised it, and nothing else changes (the
        new balance arrives with the re-fetch). */
    method HandleInvestFromBalance(now: int, user: Option<string>, insertReply: Reply<()>, updateReply: Reply<()>)
      returns (o: Outcome)
      modifies this
      ensures o == FromBalanceOutcome(old(Selected()), old(investAmount), old(balance), now, user, insertReply, updateReply)
      ensures isSubmitting == (if o.submitted then false else old(isSubmitting))
      ensures o.succeeded ==> selectedPlanId.None? && investAmount == ""
      ensures !o.succeeded ==> selectedPlanId == old(selectedPlanId) && investAmount == old(investAmount)
      ensures plans == old(plans) && cryptos == old(cryptos) && balance == old(balance)
      ensures selectedCryptoId == old(selectedCryptoId) && proof == old(proof)
      ensures investmentMethod == old(investmentMethod)
    {
      o := FromBalanceOutcome(Selected(), investAmount, balance, now, user, insertReply, updateReply);
      Settle(o, false);
    }

    /** `handleInvestViaDeposit`: as above; on success the plan, amount, coin
        and proof are all cleared. */
    method HandleInvestViaDeposit(now: int, user: Option<string>, uploadReply: Reply<()>, publicUrl: string,
                                  insertReply: Reply<()>)
      returns (o: Outcome)
      modifies this
      ensures o == ViaDepositOutcome(old(Selected()), old(investAmount), old(cryptos), old(selectedCryptoId),
                                     old(proof), now, user, uploadReply, publicUrl, insertReply)
      ensures isSubmitting == (if o.submitted then false else old(isSubmitting))
      ensures o.succeeded ==> selectedPlanId.None? && investAmount == "" && selectedCryptoId == "" && proof.None?
      ensures !o.succeeded ==> selectedPlanId == old(selectedPlanId) && investAmount == old(investAmount)
                               && selectedCryptoId == old(selectedCryptoId) && proof == old(proof)
      ensures plans == old(plans) && cryptos == old(cryptos) && balance == old(balance)
      ensures investmentMethod == old(investmentMethod)
    {
      o := ViaDepositOutcome(Selected(), investAmount, cryptos, selectedCryptoId, proof, now, user,
                             uploadReply, publicUrl, insertReply);
      Settle(o, true);
    }

    /** The state changes that close a handler with outcome `o`: the submitting
        flag is raised and lowered again when the checks passed, and on success
        the plan and amount are cleared, and also the coin and proof when
        `deposit`. */
    method Settle(o: Outcome, deposit: bool)
      requires o.succeeded ==> o.submitted
      modifies this
      ensures isSubmitting == (if o.submitted then false else old(isSubmitting))
      ensures o.succeeded ==> selectedPlanId.None? && investAmount == ""
      ensures !o.succeeded ==> selectedPlanId == old(selectedPlanId) && investAmount == old(investAmount)
      ensures o.succeeded && deposit ==> selectedCryptoId == "" && proof.None?
      ensures !(o.succeeded && deposit) ==> selectedCryptoId == old(selectedCryptoId) && proof == old(proof)
      ensures plans == old(plans) && cryptos == old(cryptos) && balance == old(balance)
      ensures investmentMethod == old(investmentMethod)
    {
      if !o.submitted {
        return;
      }
      isSubmitting := true;
      if o.succeeded {
        selectedPlanId := None;
        investAmount := "";
        if deposit {
          selectedCryptoId := "";
          proof := None;
        }
      }
      isSubmitting := false;
    }
  }
}
