/** The investment card of the "My Investments" grid. The page injects the
    badge, progress and returns functions; the card applies them to its
    investment and chooses the footer from the status. */
module InvestmentCard {
  import opened Wrappers
  import opened Investments
  import opened MyInvestment
  import Progress
  import Wallet

  datatype Footer =
    | Buttons(withdrawDisabled: bool, withdrawCaption: string)
    | StatusNote(text: string)
    | NoFooter

  datatype CardView = CardView(title: string, badge: Badge, progress: int,
                               estReturns: real, footer: Footer)

  /** The footer: Withdraw and Reinvest for a matured investment (Withdraw
      disabled and relabelled while `isWithdrawing`), a note for a withdrawn
      or reinvested one, nothing otherwise. */
  function CardFooter(s: Status, isWithdrawing: bool): (f: Footer)
    ensures f.Buttons? <==> s == Matured
    ensures f.Buttons? ==> f.withdrawDisabled == isWithdrawing
    ensures f.Buttons? ==> f.withdrawCaption == if isWithdrawing then "Withdrawing..." else "Withdraw"
    ensures f.StatusNote? <==> s == Withdrawn || s == Reinvested
    ensures f.StatusNote? ==> f.text == StatusBadge(s).text
  {
    if s == Matured then Buttons(isWithdrawing, if isWithdrawing then "Withdrawing..." else "Withdraw")
    else if s == Withdrawn || s == Reinvested then
      StatusNote(if s == Withdrawn then "Withdrawn" else "Reinvested")
    else NoFooter
  }

  /** The card for `inv` with the page's injected functions. */
  function Card(inv: Investment, isWithdrawing: bool,
                badgeOf: Status -> Badge,
                progressOf: (Option<int>, Option<int>) -> int,
                returnsOf: Investment -> real): (v: CardView)
    ensures v.title == inv.plan.name
    ensures v.badge == badgeOf(inv.status)
    ensures v.progress == progressOf(inv.startDate, inv.endDate)
    ensures v.estReturns == returnsOf(inv)
    ensures v.footer == CardFooter(inv.status, isWithdrawing)
  {
    CardView(inv.plan.name, badgeOf(inv.status), progressOf(inv.startDate, inv.endDate),
             returnsOf(inv), CardFooter(inv.status, isWithdrawing))
  }

  /** The card as the page wires it at time `now`: `isWithdrawing` is
      `withdrawingId === investment.id`. */
  function PageCard(inv: Investment, withdrawingId: Option<int>, now: int): (v: CardView)
    ensures 0 <= v.progress <= 100
    ensures !EarnsReturns(inv.status) ==> v.estReturns == 0.0
  {
    Card(inv, withdrawingId == Some(inv.id), StatusBadge,
         (s, e) => Progress.CalculateProgress(s, e, now), CalculateReturns)
  }

  /** A card and the wallet row of the same investment show the same
      progress, returns and controls; the badges differ only for `approved`. */
  lemma CardMatchesWalletRow(inv: Investment, withdrawingId: Option<int>, now: int)
    ensures PageCard(inv, withdrawingId, now).progress == Wallet.TableRow(inv, withdrawingId, now).progress
    ensures PageCard(inv, withdrawingId, now).estReturns == Wallet.TableRow(inv, withdrawingId, now).estReturns
    ensures inv.status != Approved ==> PageCard(inv, withdrawingId, now).badge == Wallet.TableRow(inv, withdrawingId, now).badge
    ensures SameControls(PageCard(inv, withdrawingId, now).footer, Wallet.TableRow(inv, withdrawingId, now).controls)
  {
  }

  /** A card footer and a table actions cell offer the same thing. */
  predicate SameControls(f: Footer, c: Wallet.RowControls) {
    match f
    case Buttons(d, cap) => c == Wallet.Controls(d, cap)
    case StatusNote(t) => c == Wallet.Note(t)
    case NoFooter => c == Wallet.Dashes
  }
}
