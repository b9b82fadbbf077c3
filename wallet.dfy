/** The wallet page: the same investments and handlers as "My Investments"
    (the `InvestmentsPage` state), shown as a table with its own badge. */
module Wallet {
  import opened Wrappers
  import opened Investments
  import opened MyInvestment
  import Progress
  import Lifecycle

  /** The wallet's `getStatusBadge`: as on the cards, except that `approved`
      has its own "Approved" badge. */
  function WalletBadge(s: Status): (b: Badge)
    ensures s == Approved ==> b == Badge("Approved", Info)
    ensures s != Approved ==> b == StatusBadge(s)
  {
    match s
    case Pending => Badge("Pending", Amber)
    case Active => Badge("Active", Green)
    case Approved => Badge("Approved", Info)
    case Matured => Badge("Matured", Blue)
    case Withdrawn => Badge("Withdrawn", Gray)
    case Reinvested => Badge("Reinvested", Purple)
    case _ => Badge(s.Name(), Outline)
  }

  /** Unlike the card badge, the wallet badge tells every status apart. */
  lemma WalletBadgeInjective(s1: Status, s2: Status)
    requires WellFormed(s1) && WellFormed(s2)
    requires WalletBadge(s1) == WalletBadge(s2)
    ensures s1 == s2
  {
    if s1 != s2 {
      if s1 != Approved && s2 != Approved {
        BadgeDistinguishes(s1, s2);
      }
      assert false;
    }
  }

  /** The actions cell of a row. */
  datatype RowControls =
    | Controls(withdrawDisabled: bool, withdrawCaption: string)
    | Note(text: string)
    | Dashes

  /** One table row: plan, amounts, progress, badge and actions. */
  datatype Row = Row(plan: string, amount: real, bonus: real, estReturns: real,
                     progress: int, badge: Badge, controls: RowControls)

  /** The actions cell: Withdraw and Reinvest for a matured row (Withdraw
      disabled and relabelled while that row is in flight), a note for a
      withdrawn or reinvested row, "--" for every other status. */
  function Actions(inv: Investment, withdrawingId: Option<int>): (c: RowControls)
    ensures c.Controls? <==> inv.status == Matured
    ensures c.Controls? ==> (c.withdrawDisabled <==> withdrawingId == Some(inv.id))
    ensures c.Controls? ==> c.withdrawCaption == if c.withdrawDisabled then "Withdrawing..." else "Withdraw"
    ensures c.Note? <==> inv.status == Withdrawn || inv.status == Reinvested
    ensures c.Note? ==> c.text == StatusBadge(inv.status).text
  {
    if inv.status == Matured then
      var busy := withdrawingId == Some(inv.id);
      Controls(busy, if busy then "Withdrawing..." else "Withdraw")
    else if inv.status == Withdrawn || inv.status == Reinvested then
      Note(if inv.status == Withdrawn then "Withdrawn" else "Reinvested")
    else Dashes
  }

  /** The row controls offer exactly the client actions the lifecycle allows. */
  lemma ActionsFollowLifecycle(inv: Investment, withdrawingId: Option<int>)
    ensures Actions(inv, withdrawingId).Controls? <==> Lifecycle.Offered(inv.status) == {Lifecycle.Withdraw, Lifecycle.Reinvest}
    ensures !Actions(inv, withdrawingId).Controls? <==> Lifecycle.Withdraw !in Lifecycle.Offered(inv.status)
  {
    if inv.status == Matured {
      assert Lifecycle.Offered(inv.status) == {Lifecycle.Withdraw, Lifecycle.Reinvest};
    }
  }

  /** The row rendered at time `now`. */
  function TableRow(inv: Investment, withdrawingId: Option<int>, now: int): (r: Row)
    ensures 0 <= r.progress <= 100
    ensures r.estReturns == CalculateReturns(inv)
    ensures r.progress == Progress.CalculateProgress(inv.startDate, inv.endDate, now)
    ensures r.badge == WalletBadge(inv.status) && r.controls == Actions(inv, withdrawingId)
  {
    Row(inv.plan.name, inv.amount, inv.bonus, CalculateReturns(inv),
        Progress.CalculateProgress(inv.startDate, inv.endDate, now),
        WalletBadge(inv.status), Actions(inv, withdrawingId))
  }

  /** The rows of the table, one per fetched investment, in fetch order. */
  function Table(invs: seq<Investment>, withdrawingId: Option<int>, now: int): (rows: seq<Row>)
    ensures |rows| == |invs|
    ensures forall i :: 0 <= i < |invs| ==> rows[i] == TableRow(invs[i], withdrawingId, now)
  {
    seq(|invs|, i requires 0 <= i < |invs| => TableRow(invs[i], withdrawingId, now))
  }

  /** While one withdrawal is in flight, only that row's Withdraw is disabled. */
  lemma AtMostOneRowBusy(invs: seq<Investment>, id: int, now: int, i: int)
    requires 0 <= i < |invs|
    requires Table(invs, Some(id), now)[i].controls.Controls?
    ensures Table(invs, Some(id), now)[i].controls.withdrawDisabled <==> invs[i].id == id
  {
  }
}
