# vantrusty client logic in Dafny

vantrusty is an investment platform: a React single-page client over a hosted
Supabase backend. Every balance change and every status change beyond an
admin's confirm or reject runs inside remote procedures whose bodies are not
part of the client. This project models the decision logic the client itself
contains and proves its properties. That logic covers:

- the elapsed-term progress percentage and its variants;
- the estimated-returns rule;
- the ordered checks that gate investing, withdrawing, sign-up and the
  settings forms;
- the status-gated controls of the investor and admin pages;
- the route and role guard of the application shell;
- the dashboard aggregates, the admin searches, filters and counts, and the
  pending-withdrawal total;
- the referral link and its read-back on the sign-up page.

Modelling choices:

- There is one module per source file, plus shared modules:
  - `Wrappers`: `Option` and `Result`;
  - `Text`: ASCII lower case, substrings, character removal;
  - `Lists`: an order-preserving filter, count, find and a left fold;
  - `JsNumber`: the part of `parseFloat` the pages rely on, and decimal text;
  - `Notices`: toasts and remote replies;
  - `Investments`: the status set and the returns rule;
  - `Progress`: the shared progress computation;
  - `Lifecycle`: the offered actions as a state machine;
  - `AdminReview`: what the two review queues share.
- Where a page keeps React state that its handlers update, the page is a
  `class` with those fields. Each handler is a method whose `ensures` gives
  the complete new state. The handler's decision is a pure outcome function
  with its own contract and lemmas.
- A remote call is never executed. Its reply is a parameter: `Reply.Data` or
  `Reply.Failed(message)`. Each handler returns the log of the writes it
  issues, in order.
- Timestamps are integer milliseconds. An empty or missing date is `None`.
  Money is `real`. JavaScript's `NaN` is `None` in `JsNumber`.
- Wallet and "My Investments" contain the same `handleWithdraw` and
  `fetchData` code. Both pages are modelled by the one class
  `MyInvestment.InvestmentsPage`.

Where the code departs from what its names or comments suggest, the model
follows the code:

- An admin confirmation writes `approved`, not `active`.
- `calculateReturns` gives 0, not the principal, for a status outside
  `active`, `matured` and `approved`.
- On a term whose end is not after its start, the `now >= end` guard comes
  first. So progress is 100, not 0, at `now == start`.
- The dashboard counts earnings only for rows with status `completed`. That
  status appears nowhere else in the code.

## Model

| member | source | states |
|---|---|---|
| `Progress.Elapsed` | src/pages/Wallet.tsx:149-152 | result in [0,100]; 100 from `end` on; 0 up to `start` before `end`; strictly inside the term the floor of the elapsed share, at most 99 |
| `Progress.PercentBelowHundred` | src/pages/Wallet.tsx:152 | for `0 < a < b` the floored percentage lies in [0,99], so the division never reaches 100 |
| `Progress.CalculateProgress` | src/pages/Wallet.tsx:143-153 | result in [0,100], and 0 when either date is missing |
| `Progress.ProgressCases` | src/pages/MyInvestment.tsx:143-153 | with both dates known: 100 when `now >= end`; 0 when `start < end` and `now <= start`; otherwise `floor(100(now-start)/(end-start)) <= 99` |
| `Progress.DegenerateTerm` | src/pages/Wallet.tsx:149-151 | when `end <= start` the result is 100 from `end` on and 0 before, with no division |
| `Progress.ProgressMonotone` | src/pages/Wallet.tsx:143-153 | progress never decreases as `now` grows, for fixed dates |
| `Progress.AdminProgress` | src/pages/admin/AdminInvestmentManagement.tsx:146-154 | the status-aware variant is 0 for `pending`, otherwise equal to the shared progress, and always in [0,100] |
| `ActiveInvestmentCard.CardProgress` | src/components/dashboard/ActiveInvestmentCard.tsx:17-26 | the strict `now < start` variant agrees with the shared definition on every input, `now == start` included, and lies in [0,100] |
| `Investments.FromName` | src/pages/Wallet.tsx:19 | the parsed status spells the given string back, and `Other` never spells a known status |
| `Investments.FromNameOfName` | src/pages/Wallet.tsx:19 | parsing a well-formed status's name gives that status back |
| `Investments.TermEnd` | src/pages/InvestNow.tsx:137 | the end lies exactly `days × 86 400 000` ms after the start, and not before it for a non-negative term |
| `Investments.CalculateReturns` | src/pages/Wallet.tsx:155-163 | 0 for every status outside active/matured/approved; otherwise the principal plus full-term simple interest |
| `Investments.ReturnsIgnoreBonusAndDates` | src/pages/MyInvestment.tsx:155-163 | the estimate does not depend on the bonus or on the dates |
| `Investments.ReturnsAtLeastPrincipal` | src/pages/Wallet.tsx:158-162 | for an earning status with non-negative terms, the estimate is at least the principal |
| `Investments.ReturnsExample` | src/pages/Wallet.tsx:155-163 | 1000 at 2% a day for 10 days is estimated at 1200 |
| `Lifecycle.Offered` | src/pages/Wallet.tsx:240-255 | confirm and reject are offered exactly on `pending`; withdraw and reinvest exactly on `matured` |
| `Lifecycle.ClientWrite` | src/pages/admin/AdminInvestmentManagement.tsx:78-81 | confirm writes `approved`, reject writes `denied`, and withdraw and reinvest leave the status to the backend |
| `Lifecycle.DecisionIsFinal` | src/pages/admin/AdminInvestmentManagement.tsx:103-110 | after either admin decision the row offers no control |
| `Lifecycle.TerminalOffersNothing` | src/pages/Wallet.tsx:249-252 | `withdrawn` and `reinvested` offer no action |
| `Lifecycle.Run` | src/pages/admin/AdminInvestmentManagement.tsx:249-258 | a sequence of clicks applied in order, each taking effect only when offered; its reachable statuses are stated by `Lifecycle.RunReach` |
| `Lifecycle.RunReach` | src/pages/admin/AdminInvestmentManagement.tsx:249-258 | for any sequence of clicks, a non-pending row never changes, and a pending row ends pending, approved or denied |
| `MyInvestment.StatusBadge` | src/pages/MyInvestment.tsx:125-141 | `active` and `approved` share the "Active" badge; the outline badge shows an unknown status verbatim, and exactly those |
| `MyInvestment.BadgeDistinguishes` | src/pages/MyInvestment.tsx:125-141 | two different well-formed statuses with the same badge are `active` and `approved` |
| `MyInvestment.WithdrawToast` | src/pages/MyInvestment.tsx:89-106 | success exactly when the returned flag is `true`; a false or absent flag gives the "not matured or has already been withdrawn" error; a failed call shows its message |
| `MyInvestment.InvestmentsPage.constructor` | src/pages/MyInvestment.tsx:33-37 | no investments, loading, no user, nothing in flight, nothing selected |
| `MyInvestment.InvestmentsPage.UserResolved` | src/pages/MyInvestment.tsx:41-52 | a signed-in user is recorded and a fetch starts; otherwise loading stops and the page reports |
| `MyInvestment.InvestmentsPage.ViewDetails` | src/pages/MyInvestment.tsx:215 | the dialog shows the chosen investment; nothing else changes |
| `MyInvestment.InvestmentsPage.BeginWithdraw` | src/pages/MyInvestment.tsx:80-82 | the row is marked in flight |
| `MyInvestment.InvestmentsPage.FinishWithdraw` | src/pages/MyInvestment.tsx:89-110 | the notice above; a re-fetch only after success with a known user; `withdrawingId` cleared on every path |
| `MyInvestment.InvestmentsPage.HandleReinvest` | src/pages/MyInvestment.tsx:113-123 | a failure reports its message without a re-fetch; a success reports and re-fetches when a user is known |
| `MyInvestment.InvestmentsPage.FetchCompleted` | src/pages/MyInvestment.tsx:56-78 | a reply replaces the list (`data` or the empty list); a failure keeps it and reports; loading ends either way |
| `Wallet.WalletBadge` | src/pages/Wallet.tsx:124-141 | `approved` has its own badge; every other status gets the card badge |
| `Wallet.WalletBadgeInjective` | src/pages/Wallet.tsx:124-141 | the wallet badge tells every pair of well-formed statuses apart |
| `Wallet.Actions` | src/pages/Wallet.tsx:240-255 | Withdraw and Reinvest exactly for `matured`; Withdraw disabled and captioned "Withdrawing..." exactly while that row is in flight; a label exactly for withdrawn or reinvested; "--" otherwise |
| `Wallet.ActionsFollowLifecycle` | src/pages/Wallet.tsx:240-255 | a row has controls exactly when the lifecycle offers withdraw and reinvest |
| `Wallet.TableRow` | src/pages/Wallet.tsx:211-257 | the row shows the returns, the progress in [0,100], the badge and the actions of its investment |
| `Wallet.Table` | src/pages/Wallet.tsx:211-259 | one row per fetched investment, in fetch order |
| `Wallet.AtMostOneRowBusy` | src/pages/Wallet.tsx:242-243 | while one withdrawal is in flight, only that row's Withdraw is disabled |
| `InvestmentCard.CardFooter` | src/components/investments/InvestmentCard.tsx:81-94 | buttons exactly for `matured`, with Withdraw disabled exactly while `isWithdrawing`; a label naming the status exactly for withdrawn or reinvested; nothing otherwise |
| `InvestmentCard.Card` | src/components/investments/InvestmentCard.tsx:44-52 | the badge, progress and returns shown are the injected functions applied to this investment |
| `InvestmentCard.PageCard` | src/pages/MyInvestment.tsx:210-220 | as wired by the page, progress lies in [0,100] and a non-earning status shows 0 returns |
| `InvestmentCard.CardMatchesWalletRow` | src/pages/MyInvestment.tsx:210-220 | a card and the wallet row of one investment show the same progress, returns and controls; the badges differ only for `approved` |
| `Dashboard.TotalInvested` | src/pages/Dashboard.tsx:51-53 | the left fold equals the sum of the amounts of the rows not `cancelled` |
| `Dashboard.TotalEarnings` | src/pages/Dashboard.tsx:56-58 | the left fold equals the sum of the full-term interest of the `completed` rows only |
| `Dashboard.Earning` | src/pages/Dashboard.tsx:58 | the full-term interest of one row, `amount × rate/100 × days`; non-negative by `Dashboard.EarningNonNegative` |
| `Dashboard.ActiveCount` | src/pages/Dashboard.tsx:61 | the number of rows with status exactly `active`, at most the row count |
| `Dashboard.ApprovedNotActive` | src/pages/Dashboard.tsx:61 | adding an `approved` row leaves the active count unchanged |
| `Dashboard.EarningNonNegative` | src/pages/Dashboard.tsx:58 | a row's full-term interest is non-negative for non-negative terms |
| `Dashboard.TotalsNonNegative` | src/pages/Dashboard.tsx:51-58 | with non-negative amounts, rates and durations, both totals are non-negative |
| `Dashboard.EarningsZeroForKnownStatuses` | src/pages/Dashboard.tsx:56-58 | over rows that carry only statuses the client knows, total earnings are 0 |
| `Dashboard.ReferralCountShown` | src/pages/Dashboard.tsx:46 | a null count is shown as 0; otherwise the count itself |
| `InvestNow.SelectedPlan` | src/pages/InvestNow.tsx:67 | no plan without an id; a found plan is listed and has that id's text; when none is found, no listed plan has it |
| `InvestNow.NatToStringInjective` | src/pages/InvestNow.tsx:67 | different ids have different selector values |
| `InvestNow.SelectorSelectsPlan` | src/pages/InvestNow.tsx:255 | with distinct ids, choosing a listed plan's value selects exactly that plan |
| `InvestNow.ValidateFromBalance` | src/pages/InvestNow.tsx:104-121 | checks in order: plan, positive number, a known balance that covers it, inclusive plan bounds; each error is reported exactly when the checks before it pass and its own fails; a pass yields the parsed amount |
| `InvestNow.ValidateViaDeposit` | src/pages/InvestNow.tsx:157-178 | checks in order: plan, positive number, plan bounds, coin chosen, proof present; each error is reported exactly when the checks before it pass and its own fails; the balance is never consulted |
| `InvestNow.FromBalanceLeavesNonNegative` | src/pages/InvestNow.tsx:128 | an accepted amount leaves a balance that is non-negative and below the old one |
| `InvestNow.WholeBalanceAccepted` | src/pages/InvestNow.tsx:114 | investing exactly the balance, typed as its decimal text, is accepted |
| `InvestNow.BoundsInclusive` | src/pages/InvestNow.tsx:118 | the plan minimum and maximum are themselves accepted on both paths |
| `InvestNow.DepositEnabledLeavesAmountChecks` | src/pages/InvestNow.tsx:70 | once the deposit button is enabled, only the amount and bounds checks can still refuse |
| `InvestNow.AcceptedBalanceEnablesButton` | src/pages/InvestNow.tsx:71 | an amount the balance path accepts never finds its button disabled, unless a submission is under way |
| `InvestNow.DepositButtonDisabled` | src/pages/InvestNow.tsx:70 | disabled while submitting or without a proof, a coin or a plan; its meaning for the handler is stated by `InvestNow.DepositEnabledLeavesAmountChecks` |
| `InvestNow.BalanceButtonDisabled` | src/pages/InvestNow.tsx:71 | disabled while submitting, without a plan or an amount, or for a number above a known balance; `NaN` and a missing profile leave it enabled, as `InvestNow.NoProfileEnabledYetRefused` and `InvestNow.AcceptedBalanceEnablesButton` state |
| `InvestNow.NoProfileEnabledYetRefused` | src/pages/InvestNow.tsx:71 | with no profile loaded the balance button is enabled, yet the click reports an insufficient balance |
| `InvestNow.Route` | src/pages/InvestNow.tsx:228-234 | the balance handler exactly for method `"balance"`; the deposit handler for any other value |
| `InvestNow.ButtonMatchesHandler` | src/pages/InvestNow.tsx:387 | on both tabs the button follows the disabled predicate of the handler the click runs |
| `InvestNow.InvestButtonDisabled` | src/pages/InvestNow.tsx:387 | the deposit predicate on the `deposit` tab and the balance predicate otherwise; tied to the click by `InvestNow.ButtonMatchesHandler` |
| `InvestNow.BalanceInvestment` | src/pages/InvestNow.tsx:131-138 | the balance-path row is `active`, starts now, and ends `duration_days × 86 400 000` ms later |
| `InvestNow.DepositInvestment` | src/pages/InvestNow.tsx:202-211 | the deposit-path row is `pending`, has the same term, and carries the coin and the proof address |
| `InvestNow.FreshInvestmentProgress` | src/pages/InvestNow.tsx:136-137 | a fresh row shows 0 progress at once and 100 once its term is over |
| `InvestNow.CryptoLabel` | src/pages/InvestNow.tsx:206 | the first listed coin whose id text matches gives "name (network)"; with no match the label is "undefined (undefined)" |
| `InvestNow.FromBalanceOutcome` | src/pages/InvestNow.tsx:123-153 | nothing is written unless the checks pass and a user is signed in; a failed insert is the only write, with its message; after a successful insert the writes are exactly the active row and the balance set to `balance − amount`, at least 0; success exactly when both writes succeed |
| `InvestNow.ViaDepositOutcome` | src/pages/InvestNow.tsx:180-225 | the upload comes first, the `pending` insert only after the upload succeeds, and no balance write is ever made |
| `InvestNow.InvestNowPage.constructor` | src/pages/InvestNow.tsx:55-65 | empty inputs, no plan, the `"deposit"` tab, not submitting |
| `InvestNow.InvestNowPage.ChoosePlan` | src/pages/InvestNow.tsx:255 | the selector sets the plan id; nothing else changes |
| `InvestNow.InvestNowPage.ChooseMethod` | src/pages/InvestNow.tsx:300 | the tabs set the method; nothing else changes |
| `InvestNow.InvestNowPage.HandleInvestFromBalance` | src/pages/InvestNow.tsx:103-154 | the outcome on the page's inputs; plan and amount cleared only on success; `isSubmitting` false once the checks have passed |
| `InvestNow.InvestNowPage.HandleInvestViaDeposit` | src/pages/InvestNow.tsx:156-226 | as above; the coin and proof are also cleared on success |
| `InvestNow.InvestNowPage.Settle` | src/pages/InvestNow.tsx:146-152 | the closing state changes of a handler, and no other field touched |
| `Withdraw.ValidateWithdrawal` | src/pages/Withdraw.tsx:54-63 | `NaN` or a non-positive amount is refused before the balance check; then a missing profile or an amount above the balance; the exact balance is accepted |
| `Withdraw.WithdrawalOutcome` | src/pages/Withdraw.tsx:52-80 | `create_withdrawal` gets the amount exactly when both checks pass; the page moves to `/dashboard` exactly after a successful call |
| `Withdraw.MaximumRoundTrip` | src/pages/Withdraw.tsx:141 | the text "Withdraw Maximum" writes parses back to the balance, passes exactly when the balance is positive, and then requests the whole balance |
| `Withdraw.WithdrawPage.constructor` | src/pages/Withdraw.tsx:19-22 | empty amount, no profile, not submitting, page loading |
| `Withdraw.WithdrawPage.ProfileLoaded` | src/pages/Withdraw.tsx:26-43 | a signed-in user's reply sets the profile or reports; page loading ends either way |
| `Withdraw.WithdrawPage.WithdrawMaximum` | src/pages/Withdraw.tsx:141 | with a profile, the amount becomes the balance's text; without one nothing changes |
| `Withdraw.WithdrawPage.HandleWithdrawal` | src/pages/Withdraw.tsx:52-80 | the outcome on the page's amount and balance; `isLoading` false after every attempt that reached the call |
| `AdminInvestments.FilteredInvestments` | src/pages/admin/AdminInvestmentManagement.tsx:124-129 | keeps exactly the rows whose name, email, plan or status contains the term, ignoring case, in their original order |
| `AdminInvestments.EmptySearchKeepsAll` | src/pages/admin/AdminInvestmentManagement.tsx:124-129 | an empty search keeps every row, a null name or email included |
| `AdminInvestments.AdminBadge` | src/pages/admin/AdminInvestmentManagement.tsx:131-144 | own badges for pending, approved, denied and matured; any other status verbatim in the outline badge |
| `AdminInvestments.TableProgressAsWritten` | src/pages/admin/AdminInvestmentManagement.tsx:235 | the table's two-argument call equals the date-only progress, whatever the status |
| `AdminInvestments.PendingRowShowsProgressAsWritten` | src/pages/admin/AdminInvestmentManagement.tsx:238 | a pending row halfway through its dates shows 50% |
| `AdminInvestments.TableProgress` | src/pages/admin/AdminInvestmentManagement.tsx:146-147 | with the status passed: 0 for pending rows, the date progress otherwise |
| `AdminInvestments.ProgressColumnsDiffer` | src/pages/admin/AdminInvestmentManagement.tsx:146-154 | the two columns differ only on pending rows whose dates give positive progress |
| `AdminInvestments.ControlsFollowLifecycle` | src/pages/admin/AdminInvestmentManagement.tsx:320-331 | confirm and reject are shown exactly when the lifecycle offers them, which is on `pending` |
| `AdminInvestments.DurationOrZero` | src/pages/admin/AdminInvestmentManagement.tsx:80 | a missing duration counts as 0 days |
| `AdminInvestments.ConfirmOutcome` | src/pages/admin/AdminInvestmentManagement.tsx:73-101 | an unlisted id does nothing; otherwise `approved` with a fresh term starting now comes first, and the credit of exactly the row's amount to its user only after that succeeds; a failure of either call gives "Error confirming investment" with that call's message |
| `AdminInvestments.ConfirmWithoutDuration` | src/pages/admin/AdminInvestmentManagement.tsx:80 | with no plan duration, the confirmation writes `end == start` |
| `AdminInvestments.ConfirmFollowsLifecycle` | src/pages/admin/AdminInvestmentManagement.tsx:75-81 | confirming a pending row writes the lifecycle's `approved` |
| `AdminInvestments.RejectOutcome` | src/pages/admin/AdminInvestmentManagement.tsx:103-122 | exactly one write, `denied`; the success notice uses the destructive style |
| `AdminInvestments.RejectMovesNoFunds` | src/pages/admin/AdminInvestmentManagement.tsx:103-110 | a rejection issues no balance call and writes the lifecycle's `denied` |
| `AdminInvestments.AdminInvestmentsPage.constructor` | src/pages/admin/AdminInvestmentManagement.tsx:31-34 | empty search, no rows, nothing selected, loading |
| `AdminInvestments.AdminInvestmentsPage.Search` | src/pages/admin/AdminInvestmentManagement.tsx:31 | the search term is set; nothing else changes |
| `AdminInvestments.AdminInvestmentsPage.ViewDetails` | src/pages/admin/AdminInvestmentManagement.tsx:246 | the dialog row is set; nothing else changes |
| `AdminInvestments.AdminInvestmentsPage.FetchCompleted` | src/pages/admin/AdminInvestmentManagement.tsx:36-55 | a reply replaces the rows (`data` or the empty list); a failure keeps them and reports; loading ends either way |
| `AdminInvestments.AdminInvestmentsPage.HandleConfirm` | src/pages/admin/AdminInvestmentManagement.tsx:73-101 | the confirm outcome on the listed rows; the selection cleared only on success |
| `AdminInvestments.AdminInvestmentsPage.HandleReject` | src/pages/admin/AdminInvestmentManagement.tsx:103-122 | the reject outcome; the selection cleared only on success |
| `AdminReview.EmptyTermMatches` | src/pages/admin/AdminKYC.tsx:26 | the empty search matches every name and email |
| `AdminReview.RowControls` | src/pages/admin/AdminKYC.tsx:179-191 | the eye first, always; approve and reject exactly for `pending` |
| `AdminReview.DialogControls` | src/pages/admin/AdminKYC.tsx:244-255 | approve and reject exactly for `pending`, and no eye |
| `AdminReview.DialogMatchesRow` | src/pages/admin/AdminWithdrawals.tsx:258-269 | the dialog offers the row's decisions, no more and no fewer |
| `AdminKyc.FilteredKyc` | src/pages/admin/AdminKYC.tsx:25-29 | keeps exactly the requests that match the name-or-email search and the status filter, in order |
| `AdminKyc.NoSearchShowsAll` | src/pages/admin/AdminKYC.tsx:25-29 | no search and the `all` filter keep every request |
| `AdminKyc.StatusFilterKeepsStatus` | src/pages/admin/AdminKYC.tsx:27 | a status filter with no search keeps exactly the requests of that status |
| `AdminKyc.ShownPending` | src/pages/admin/AdminKYC.tsx:75 | the page's list has 3 pending requests |
| `AdminKyc.ShownApproved` | src/pages/admin/AdminKYC.tsx:88 | the page's list has 1 approved request |
| `AdminKyc.ShownRejected` | src/pages/admin/AdminKYC.tsx:101 | the page's list has 1 rejected request |
| `AdminKyc.ShownCounts` | src/pages/admin/AdminKYC.tsx:12-18 | the three counts together: 3, 1 and 1 |
| `AdminKyc.PendingCount` | src/pages/admin/AdminKYC.tsx:75 | the number of `pending` requests; bounded with the other cards by `AdminKyc.StatCountsPartition` |
| `AdminKyc.ApprovedCount` | src/pages/admin/AdminKYC.tsx:88 | the number of `approved` requests; bounded with the other cards by `AdminKyc.StatCountsPartition` |
| `AdminKyc.RejectedCount` | src/pages/admin/AdminKYC.tsx:101 | the number of `rejected` requests; bounded with the other cards by `AdminKyc.StatCountsPartition` |
| `AdminKyc.StatCountsPartition` | src/pages/admin/AdminKYC.tsx:75-101 | for any list, the three cards total at most its length, and exactly its length when every status is one of the three |
| `AdminKyc.DecisionsOnlyWhenPending` | src/pages/admin/AdminKYC.tsx:182-191 | approve and reject exactly for a pending request, in its row and in its dialog |
| `AdminKyc.AdminKycPage.constructor` | src/pages/admin/AdminKYC.tsx:21-23 | empty search, the `all` filter, nothing selected |
| `AdminKyc.AdminKycPage.Search` | src/pages/admin/AdminKYC.tsx:21 | the search term is set; nothing else changes |
| `AdminKyc.AdminKycPage.SetFilter` | src/pages/admin/AdminKYC.tsx:125 | the filter is set; nothing else changes |
| `AdminKyc.AdminKycPage.ViewDetails` | src/pages/admin/AdminKYC.tsx:179 | the dialog request is set; nothing else changes |
| `AdminKyc.AdminKycPage.HandleApprove` | src/pages/admin/AdminKYC.tsx:31-34 | the approval notice naming the id, and the selection cleared |
| `AdminKyc.AdminKycPage.HandleReject` | src/pages/admin/AdminKYC.tsx:36-39 | the destructive rejection notice naming the id, and the selection cleared |
| `AdminUsers.FilteredUsers` | src/pages/admin/AdminUsers.tsx:25-28 | keeps exactly the users whose name or email contains the term, ignoring case, in order |
| `AdminUsers.EmptySearchKeepsAll` | src/pages/admin/AdminUsers.tsx:25-28 | an empty search keeps every user |
| `AdminUsers.AccountAction` | src/pages/admin/AdminUsers.tsx:207 | "suspend" exactly for `active`, "activate" for every other status |
| `AdminUsers.MenuActions` | src/pages/admin/AdminUsers.tsx:132-146 | email, then suspend exactly for an active user and activate exactly otherwise |
| `AdminUsers.ShownActions` | src/pages/admin/AdminUsers.tsx:13-19 | of the page's users, only the suspended one (id 3) is offered "activate" |
| `AdminUsers.ActionToast` | src/pages/admin/AdminUsers.tsx:30-35 | the action notice is a success notice |
| `AdminUsers.ActionToastIdentifies` | src/pages/admin/AdminUsers.tsx:30-35 | two equal notices name the same action and the same user id |
| `AdminUsers.AdminUsersPage.constructor` | src/pages/admin/AdminUsers.tsx:22-23 | empty search, nothing selected |
| `AdminUsers.AdminUsersPage.Search` | src/pages/admin/AdminUsers.tsx:22 | the search term is set; nothing else changes |
| `AdminUsers.AdminUsersPage.ViewDetails` | src/pages/admin/AdminUsers.tsx:128 | the dialog user is set; nothing else changes |
| `AdminUsers.AdminUsersPage.HandleAction` | src/pages/admin/AdminUsers.tsx:30-35 | the notice of the action, and no page state changed |
| `AdminWithdrawals.FilteredWithdrawals` | src/pages/admin/AdminWithdrawals.tsx:25-29 | keeps exactly the requests that match the name-or-email search and the status filter, in order |
| `AdminWithdrawals.NoSearchShowsAll` | src/pages/admin/AdminWithdrawals.tsx:25-29 | no search and the `all` filter keep every request |
| `AdminWithdrawals.DollarAmountValue` | src/pages/admin/AdminWithdrawals.tsx:31 | `"$"` followed by a number's digits reads back as that number |
| `AdminWithdrawals.AmountValue` | src/pages/admin/AdminWithdrawals.tsx:31 | an amount without `$` or `,` reads as `parseFloat` of itself; with them, see `AdminWithdrawals.AmountFromDigits` |
| `AdminWithdrawals.AddAllSum` | src/pages/admin/AdminWithdrawals.tsx:31 | when every amount parses, the reduce is the starting value plus their sum |
| `AdminWithdrawals.AddAllNaN` | src/pages/admin/AdminWithdrawals.tsx:31 | one unparsable amount makes the whole reduce `NaN` |
| `AdminWithdrawals.PendingAmountsBy` | src/pages/admin/AdminWithdrawals.tsx:31 | one parsed amount per pending request |
| `AdminWithdrawals.PendingTotalIsSum` | src/pages/admin/AdminWithdrawals.tsx:31 | for any reading of the amounts, the reduce is their sum, or `NaN` once one fails |
| `AdminWithdrawals.PendingTotal` | src/pages/admin/AdminWithdrawals.tsx:31 | the sum of the pending amounts with `$` and `,` removed, or `NaN` when one does not parse |
| `AdminWithdrawals.AmountFromDigits` | src/pages/admin/AdminWithdrawals.tsx:31 | an amount whose digits, once `$` and `,` are dropped, spell `n` reads as `n` |
| `AdminWithdrawals.FiveThousand` | src/pages/admin/AdminWithdrawals.tsx:13 | "$5,000" reads as 5000 |
| `AdminWithdrawals.TwentyFiveHundred` | src/pages/admin/AdminWithdrawals.tsx:14 | "$2,500" reads as 2500 |
| `AdminWithdrawals.ShownPending` | src/pages/admin/AdminWithdrawals.tsx:79 | the pending requests of the page's list are its first two |
| `AdminWithdrawals.ShownCompleted` | src/pages/admin/AdminWithdrawals.tsx:105 | the page's list has 1 completed request |
| `AdminWithdrawals.ShownRejected` | src/pages/admin/AdminWithdrawals.tsx:118 | the page's list has 1 rejected request |
| `AdminWithdrawals.ShownCounts` | src/pages/admin/AdminWithdrawals.tsx:12-18 | the three counts together: 2, 1 and 1 |
| `AdminWithdrawals.PendingCount` | src/pages/admin/AdminWithdrawals.tsx:79 | the number of `pending` requests; bounded with the other cards by `AdminWithdrawals.StatCountsPartition` |
| `AdminWithdrawals.CompletedCount` | src/pages/admin/AdminWithdrawals.tsx:105 | the number of `completed` requests; bounded with the other cards by `AdminWithdrawals.StatCountsPartition` |
| `AdminWithdrawals.RejectedCount` | src/pages/admin/AdminWithdrawals.tsx:118 | the number of `rejected` requests; bounded with the other cards by `AdminWithdrawals.StatCountsPartition` |
| `AdminWithdrawals.StatCountsPartition` | src/pages/admin/AdminWithdrawals.tsx:79-118 | for any list, the three cards total at most its length, and exactly its length when every status is `pending`, `completed` or `rejected` |
| `AdminWithdrawals.TwoPendingTotal` | src/pages/admin/AdminWithdrawals.tsx:31 | two pending requests that read as `x` and `y` total `x + y` |
| `AdminWithdrawals.ShownTotalBy` | src/pages/admin/AdminWithdrawals.tsx:31 | over the page's list, any reading that gives 5000 and 2500 totals 7500 |
| `AdminWithdrawals.ShownPendingTotal` | src/pages/admin/AdminWithdrawals.tsx:31 | the page's pending total is 7500 |
| `AdminWithdrawals.DecisionsOnlyWhenPending` | src/pages/admin/AdminWithdrawals.tsx:199-208 | approve and reject exactly for a pending request, in its row and in its dialog |
| `AdminWithdrawals.AdminWithdrawalsPage.constructor` | src/pages/admin/AdminWithdrawals.tsx:21-23 | empty search, the `all` filter, nothing selected |
| `AdminWithdrawals.AdminWithdrawalsPage.Search` | src/pages/admin/AdminWithdrawals.tsx:21 | the search term is set; nothing else changes |
| `AdminWithdrawals.AdminWithdrawalsPage.SetFilter` | src/pages/admin/AdminWithdrawals.tsx:142 | the filter is set; nothing else changes |
| `AdminWithdrawals.AdminWithdrawalsPage.ViewDetails` | src/pages/admin/AdminWithdrawals.tsx:196 | the dialog request is set; nothing else changes |
| `AdminWithdrawals.AdminWithdrawalsPage.HandleApprove` | src/pages/admin/AdminWithdrawals.tsx:33-36 | the approval notice naming the id, and the selection cleared |
| `AdminWithdrawals.AdminWithdrawalsPage.HandleReject` | src/pages/admin/AdminWithdrawals.tsx:38-41 | the destructive rejection notice naming the id, and the selection cleared |
| `Referrals.ReferralLink` | src/pages/Referrals.tsx:23 | "" exactly without a profile; otherwise the origin, then "/signup?ref=", then the username |
| `Referrals.ShownBonus` | src/pages/Referrals.tsx:135 | the bonus or 0: 0 without a profile, the bonus otherwise |
| `Referrals.EnabledShowsPositiveBonus` | src/pages/Referrals.tsx:140 | an enabled button means a loaded profile with a positive bonus, and no withdrawal or load under way |
| `Referrals.WithdrawBonusDisabled` | src/pages/Referrals.tsx:140 | disabled while withdrawing or loading, without a profile, or with a bonus of 0 or less; read in reverse by `Referrals.EnabledShowsPositiveBonus` |
| `Referrals.BonusWithdrawToast` | src/pages/Referrals.tsx:63-70 | success exactly when the call succeeds; a failure shows its message or the generic text |
| `Referrals.ReferralsPage.constructor` | src/pages/Referrals.tsx:17-21 | no profile, count 0, loading, not withdrawing, not copied |
| `Referrals.ReferralsPage.FetchCompleted` | src/pages/Referrals.tsx:29-51 | both replies are applied together, and only when both succeed (a null count becomes 0); the first error is reported; loading ends either way |
| `Referrals.ReferralsPage.CopyLink` | src/pages/Referrals.tsx:53-56 | the clipboard receives the link and the copied mark is raised |
| `Referrals.ReferralsPage.CopyTimerElapsed` | src/pages/Referrals.tsx:57 | the copied mark is lowered |
| `Referrals.ReferralsPage.HandleWithdrawBonus` | src/pages/Referrals.tsx:60-74 | the notice above; a re-fetch exactly after success; `isWithdrawing` false on every path |
| `Settings.PasswordRequirements` | src/pages/Settings.tsx:93-97 | the checklist, in order: length at least 8, a digit, a capital letter |
| `Settings.StrongIff` | src/pages/Settings.tsx:99 | all requirements are met exactly when the length is at least 8 and there is a digit and a capital A–Z |
| `Settings.AllRequirementsMet` | src/pages/Settings.tsx:99 | every checklist item is met; `Settings.StrongIff` states it as length, digit and capital |
| `Settings.StrongExamples` | src/pages/Settings.tsx:93-99 | "Secret123" and "Secret12" are strong |
| `Settings.WeakExamples` | src/pages/Settings.tsx:93-99 | "secret123" (no capital) and "Short1A" (7 characters) are refused |
| `Settings.CheckNewPassword` | src/pages/Settings.tsx:104-116 | checks in order: strength, then confirmation, then different from the username and the full name; each error exactly when the earlier checks pass and its own fails |
| `Settings.ChangePasswordOutcome` | src/pages/Settings.tsx:101-130 | `updateUser` is called exactly when the checks pass; the fields are cleared exactly after a successful update |
| `Settings.ChangePasswordToast` | src/pages/Settings.tsx:104-126 | the notice is the first failed check's, or the backend's message, or success exactly when cleared |
| `Settings.ProfileErrorText` | src/pages/Settings.tsx:83-86 | a message containing "is already taken" is replaced by one naming the username; any other is kept |
| `Settings.TakenMessageNamesUsername` | src/pages/Settings.tsx:85 | the replaced message contains the username tried |
| `Settings.SaveProfileOutcome` | src/pages/Settings.tsx:65-91 | `update_profile` is called exactly for a username of at least 3 characters; the validation, failure and success notices |
| `Settings.SettingsPage.constructor` | src/pages/Settings.tsx:20-30 | empty fields, no profile, loading, not submitting |
| `Settings.SettingsPage.ProfileLoaded` | src/pages/Settings.tsx:36-63 | a row fills the form; no row warns; an error reports; loading ends either way |
| `Settings.SettingsPage.HandleSaveProfile` | src/pages/Settings.tsx:65-91 | the outcome above; `isSubmittingProfile` false on every path, the early return included |
| `Settings.SettingsPage.HandleChangePassword` | src/pages/Settings.tsx:101-130 | the outcome above; both fields cleared only after success; `isSubmittingPassword` false on every path |
| `Settings.SettingsPage.ClearPasswords` | src/pages/Settings.tsx:122-123 | both password fields emptied, or both left as they are |
| `Signup.CheckSignup` | src/pages/Signup.tsx:44-55 | a mismatch is reported first, then weak strength (the checklist the settings page uses); a pass exactly when both hold |
| `Signup.CheckOrderDiffersFromSettings` | src/pages/Signup.tsx:44-55 | a weak, mistyped password is a mismatch at sign-up but "not strong enough" in the settings |
| `Signup.SubmitOutcomeOf` | src/pages/Signup.tsx:41-83 | `signUp` gets the form's fields exactly when the checks pass; the page moves to `/login` exactly when a user comes back |
| `Signup.LinkQuery` | src/pages/Referrals.tsx:23 | the query of a referral link is `ref=` and the username |
| `Signup.ReferralLinkPrefills` | src/pages/Signup.tsx:26-31 | following a referral link prefills the referrer with the inviting username; an empty username leaves the field |
| `Signup.SignupPage.constructor` | src/pages/Signup.tsx:12-21 | empty fields, not loading |
| `Signup.SignupPage.LoadRef` | src/pages/Signup.tsx:26-31 | a present, non-empty `ref` replaces the referrer; anything else leaves it |
| `Signup.RefPrefill` | src/pages/Signup.tsx:27-30 | a present, non-empty `ref` replaces the referrer, anything else keeps it; the link-to-field round trip is `Signup.ReferralLinkPrefills` |
| `Signup.SignupPage.HandleSubmit` | src/pages/Signup.tsx:41-83 | the outcome above on the form; loading false again after the call; no field changes |
| `SearchParams.Before` | src/pages/Signup.tsx:27 | the longest prefix without the marker, followed by the marker when shorter than the text |
| `SearchParams.After` | src/pages/Signup.tsx:27 | none exactly without the marker; otherwise the text is the prefix, the marker and the result |
| `SearchParams.BeforeAppend` | src/pages/Signup.tsx:27 | a prefix without the marker passes through unchanged |
| `SearchParams.AfterMarker` | src/pages/Signup.tsx:27 | cutting at a marker placed after a text without one gives both sides back |
| `SearchParams.Split` | src/pages/Signup.tsx:27 | at least one piece, and no piece contains the separator |
| `SearchParams.Decode` | src/pages/Signup.tsx:27 | `+` becomes a space; every other character is kept in place |
| `SearchParams.DecodeKeeps` | src/pages/Signup.tsx:27 | a text without `+` decodes to itself |
| `SearchParams.Search` | src/pages/Signup.tsx:24 | the query never contains `#` |
| `SearchParams.GetSinglePair` | src/pages/Signup.tsx:27 | a one-pair query returns its value, for a name and value free of the special characters |
| `SearchParams.Lookup` | src/pages/Signup.tsx:27 | none exactly when no piece has the name; otherwise the decoded value of the first piece that has it |
| `SearchParams.Get` | src/pages/Signup.tsx:27 | the lookup over the `&`-separated pieces; a one-pair query is read back by `SearchParams.GetSinglePair` |
| `App.Guard` | src/App.tsx:47-55 | no session goes to `/login`; a session refused by a non-empty role list goes to `/dashboard`; an admitted session gets the children |
| `App.Admitted` | src/App.tsx:47-53 | a session, and, when roles are listed, a non-empty role among them; `App.Guard` renders the children exactly for an admitted session |
| `App.EmptyRolesAdmitAnySession` | src/App.tsx:51-54 | an empty role list admits every session, whatever its role |
| `App.Waiting` | src/App.tsx:111 | still loading, or a session whose role is still null; `App.Render` shows the spinner exactly then |
| `App.Render` | src/App.tsx:111-129 | the spinner exactly while loading, or while a session has no role yet |
| `App.RoutesAdmitRoles` | src/App.tsx:132-164 | once loaded, admin pages are shown exactly to role `admin`, and dashboard pages exactly to `user` or `admin` |
| `App.SessionRedirects` | src/App.tsx:128-129 | with no session every guarded page goes to `/login`; with one, `/login` and `/signup` go to `/dashboard` |
| `App.RoleErrorKeepsSpinner` | src/App.tsx:111 | a signed-in session without a role stays on the spinner on every path |
| `App.AppState.constructor` | src/App.tsx:58-60 | no session, no role, loading |
| `App.AppState.ApplyRole` | src/App.tsx:75-80 | an error clears the role; a row sets it; no row leaves it |
| `App.AppState.SessionLoaded` | src/App.tsx:63-85 | the session is stored and the role applied only when there is a session (cleared otherwise); loading ends |
| `App.AppState.AuthChanged` | src/App.tsx:89-105 | the session is replaced and the role re-applied or cleared; loading is untouched |
| `Notices.ErrorText` | src/pages/Withdraw.tsx:76 | the message or "An unexpected error occurred.": never empty, and the message itself when there is one |
| `JsNumber.NatToString` | src/pages/InvestNow.tsx:67 | a non-empty digit string whose value is the number |
| `JsNumber.DecimalText` | src/pages/Withdraw.tsx:141 | the text of a decimal number is never empty |
| `JsNumber.ParseWhole` | src/pages/Withdraw.tsx:54 | a digit string parses to its value |
| `JsNumber.ParseWholeAndFraction` | src/pages/Withdraw.tsx:54 | digits, a point and digits parse to the whole part plus the fraction |
| `JsNumber.ParseMagnitudeText` | src/pages/Withdraw.tsx:141 | the unsigned text of a decimal parses to its magnitude |
| `JsNumber.ParseFloatDigitFirst` | src/pages/Withdraw.tsx:54 | a text starting with a digit is read without sign or spaces |
| `JsNumber.ParseFloatMinusDigit` | src/pages/Withdraw.tsx:54 | a minus followed by a digit negates the unsigned reading |
| `JsNumber.ParseSignedText` | src/pages/Withdraw.tsx:54 | a signed text parses to the signed value |
| `JsNumber.ParseDecimalText` | src/pages/Withdraw.tsx:141 | `parseFloat(x.toString())` gives `x` back for every finite decimal |
| `JsNumber.ParseFloat` | src/pages/Withdraw.tsx:54 | a blank text, or one that does not start with a digit, a sign or a point after the leading spaces, is `NaN`; the value of a decimal text is read back by `JsNumber.ParseDecimalText` |
| `JsNumber.ParseNatText` | src/pages/InvestNow.tsx:104 | a natural number's text parses to the number |
| `Text.Lower` | src/pages/admin/AdminUsers.tsx:26 | ASCII `toLowerCase`: same length, each character lowered |
| `Text.LowerIdempotent` | src/pages/admin/AdminUsers.tsx:26 | lowering twice is lowering once |
| `Text.ContainsIff` | src/pages/admin/AdminUsers.tsx:26 | `includes` holds exactly when the term occurs at some position |
| `Text.Contains` | src/pages/admin/AdminUsers.tsx:26 | `includes`, characterised by `Text.ContainsIff` |
| `Text.IncludesIgnoreCase` | src/pages/admin/AdminUsers.tsx:26-27 | `includes` on both sides lowered; the empty term matches, by `Text.IncludesEmpty` |
| `Text.ContainsEmpty` | src/pages/admin/AdminUsers.tsx:26 | every text includes the empty term |
| `Text.IncludesEmpty` | src/pages/admin/AdminUsers.tsx:26 | every text includes the empty term, ignoring case |
| `Text.RemoveAll` | src/pages/admin/AdminWithdrawals.tsx:31 | `replace(/[$,]/g, "")`: no removed character is left, and no character is added |
| `Text.RemoveAllAppend` | src/pages/admin/AdminWithdrawals.tsx:31 | removal distributes over concatenation |
| `Text.RemoveAllNone` | src/pages/admin/AdminWithdrawals.tsx:31 | a text with none of the characters is unchanged |
| `Lists.Filter` | src/pages/Dashboard.tsx:52 | `filter`: exactly the elements that satisfy the predicate, as an order-preserving subsequence |
| `Lists.FilterAll` | src/pages/admin/AdminUsers.tsx:25 | a predicate every element meets keeps the whole list |
| `Lists.FilterNone` | src/pages/Dashboard.tsx:57 | a predicate no element meets keeps nothing |
| `Lists.FilterAppend` | src/pages/Dashboard.tsx:61 | filtering distributes over concatenation |
| `Lists.Count` | src/pages/admin/AdminKYC.tsx:75 | `filter(...).length` is at most the list length |
| `Lists.CountAppend` | src/pages/admin/AdminKYC.tsx:75 | counting distributes over concatenation |
| `Lists.CountThree` | src/pages/admin/AdminKYC.tsx:75-101 | counts under three mutually exclusive predicates total at most the length, and exactly the length when they cover every element |
| `Lists.Find` | src/pages/admin/AdminInvestmentManagement.tsx:75 | `find`: none exactly when no element matches; a found element is listed and matches |
| `Lists.ReduceIsSum` | src/pages/Dashboard.tsx:53 | `reduce((acc, x) => acc + f(x), a)` is `a` plus the sum |
| `Lists.Reduce` | src/pages/Dashboard.tsx:53 | `reduce((acc, x) => acc + f(x), acc)` from the left; equal to the start plus the sum by `Lists.ReduceIsSum` |
| `Lists.SumNonNegative` | src/pages/Dashboard.tsx:53 | a sum of non-negative terms is non-negative |
| `Lists.SumAppend` | src/pages/Dashboard.tsx:53 | the sum distributes over concatenation |

## Left out

- The remote procedures' bodies are not modelled. These are `withdraw_investment`, `reinvest_investment`, `update_user_balance`, `create_withdrawal`, `withdraw_referral_bonus` and `update_profile`. Only their replies enter the model, and the handlers record which calls they issue.
- No reinvest amount and no `active` to `matured` transition is modelled. No client code performs either.
- Supabase queries, authentication, storage uploads and the realtime channel are left out. They are I/O; their results are parameters.
- Asynchronous interleavings are left out. Each handler is one sequential step. The role query started by an auth change is taken to answer before anything else happens.
- Double submissions and the non-atomic insert-then-update of InvestNow are left out; they are backend races.
- Currency and date formatting (`Intl.NumberFormat`, `toLocaleString`, `date-fns`) is left out. Descriptions built from formatted amounts are the empty string in the model.
- Floating-point rounding is left out: money is `real`. `Math.floor(((now - start) / (end - start)) * 100)` is modelled as the integer `(100·(now−start)) / (end−start)`, which agrees on exact arithmetic.
- Invalid date strings that parse to `NaN` are left out. A date is present (`Some`) or empty (`None`).
- JsNumber.ParseFloat does not model "Infinity", hexadecimal-looking prefixes or values beyond double precision. The pages only read the texts of entered amounts and balances.
- JsNumber.DecimalText: `toString`'s exponent form for very large or small numbers is not modelled.
- JsNumber.DecimalText writes whatever fraction digits its decimal holds, so it can produce trailing zeros ("1.50") or a negative zero ("-0"), which `toString` never writes. The round-trip lemmas only need a text that parses back to the same value.
- JsNumber.SkipSpaces trims only space, tab, line feed and carriage return. `parseFloat` also trims vertical tab, form feed, no-break space, U+FEFF and the other Unicode spaces. The amount fields are number inputs whose values never contain these characters.
- App.Render compares paths by exact string equality. The router also matches routes ignoring case and with a trailing slash, so "/Dashboard" or "/admin/" reach the guarded page in the application but fall to the catch-all page in the model. The guard decisions proved for each listed path are not affected.
- Text.Lower folds ASCII letters only. Non-ASCII case folding of `toLowerCase` and UTF-16 code-unit lengths are not modelled.
- SearchParams.Decode does not percent-decode `%xx`. The referral lemmas require usernames without `&`, `#` or `+`.
- The proof upload's file path and the public address are left out. The address is a parameter, and the upload is one call naming the user.
- InvestNow's `fetchData`, which loads plans, coins and the profile, is left out. Its results are the page's fields.
- The clipboard API is a parameter-free effect; `CopyLink` returns the text written.
- AdminUsers' status filter buttons do nothing in the code and are not modelled.
- Pages that are only JSX or static data are left out: the landing sections, Header, Footer, Legal, Index, DashboardHeader, StatCard, QuickActions, RecentActivity, both sidebars, AdminDashboard, AdminReports, AdminSettings, Login and Support. AdminCrypto, a thin form over a table, is left out too.
- The error notices of the validators are the `ErrorToast` members of the error datatypes. Their titles and texts are written out but have no row of their own.
- AdminUsers.ActionToast states only that the notice is a success; its texts are the body's own.

## Findings

| source | as written | input that shows it | evidently intended | confidence | as-written member | corrected member |
|---|---|---|---|---|---|---|
| src/pages/admin/AdminInvestmentManagement.tsx:235 | the progress column calls the status-aware `calculateProgress` with two arguments, so the status is `undefined` and the `pending` guard never fires | a pending row with start 0, end 100 and now 50 shows 50% | pending rows show 0%, as the function's `status === 'pending'` guard is written to give | not executed | `AdminInvestments.PendingRowShowsProgressAsWritten` | `AdminInvestments.TableProgress` |
