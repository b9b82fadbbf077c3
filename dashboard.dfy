/** The investor dashboard's summary figures, computed from the user's
    investment rows and referral count. */
module Dashboard {
  import opened Wrappers
  import opened Investments
  import Lists

  /** A row of `investment_details` as the dashboard selects it. */
  datatype DashRow = DashRow(amount: real, status: Status, dailyRate: real, durationDays: int)

  const Cancelled: Status := Other("cancelled")
  const Completed: Status := Other("completed")

  /** The full-term interest of a row, `amount * (rate / 100) * days`. */
  function Earning(r: DashRow): real {
    FullTermInterest(r.amount, r.dailyRate, r.durationDays)
  }

  /** `totalInvested`: the left fold of the amounts of every row not
      `cancelled`. */
  function TotalInvested(rows: seq<DashRow>): (t: real)
    ensures t == Lists.Sum(Lists.Filter(rows, (r: DashRow) => r.status != Cancelled), (r: DashRow) => r.amount)
  {
    var kept := Lists.Filter(rows, (r: DashRow) => r.status != Cancelled);
    Lists.ReduceIsSum(kept, (r: DashRow) => r.amount, 0.0);
    Lists.Reduce(kept, (r: DashRow) => r.amount, 0.0)
  }

  /** `totalEarnings`: the left fold of the full-term interest of the
      `completed` rows only. */
  function TotalEarnings(rows: seq<DashRow>): (t: real)
    ensures t == Lists.Sum(Lists.Filter(rows, (r: DashRow) => r.status == Completed), Earning)
  {
    var kept := Lists.Filter(rows, (r: DashRow) => r.status == Completed);
    Lists.ReduceIsSum(kept, Earning, 0.0);
    Lists.Reduce(kept, Earning, 0.0)
  }

  /** `activeInvestmentsCount`: the rows whose status is exactly `active`. */
  function ActiveCount(rows: seq<DashRow>): (n: nat)
    ensures n == Lists.Count(rows, (r: DashRow) => r.status == Active)
    ensures n <= |rows|
  {
    |Lists.Filter(rows, (r: DashRow) => r.status == Active)|
  }

  /** An `approved` row is not counted as active. */
  lemma ApprovedNotActive(rows: seq<DashRow>, r: DashRow)
    requires r.status == Approved
    ensures ActiveCount(rows + [r]) == ActiveCount(rows)
  {
    Lists.FilterAppend(rows, [r], (r: DashRow) => r.status == Active);
    assert Lists.Filter([r], (r: DashRow) => r.status == Active) == [];
  }

  lemma EarningNonNegative(r: DashRow)
    requires r.amount >= 0.0 && r.dailyRate >= 0.0 && r.durationDays >= 0
    ensures Earning(r) >= 0.0
  {
    var a := r.amount * (r.dailyRate / 100.0);
    assert a >= 0.0;
    assert a * (r.durationDays as real) >= 0.0;
  }

  /** With non-negative amounts, rates and durations both totals are
      non-negative. */
  lemma TotalsNonNegative(rows: seq<DashRow>)
    requires forall i :: 0 <= i < |rows| ==> rows[i].amount >= 0.0 && rows[i].dailyRate >= 0.0 && rows[i].durationDays >= 0
    ensures TotalInvested(rows) >= 0.0
    ensures TotalEarnings(rows) >= 0.0
  {
    var inv := Lists.Filter(rows, (r: DashRow) => r.status != Cancelled);
    var done := Lists.Filter(rows, (r: DashRow) => r.status == Completed);
    Lists.SumNonNegative(inv, (r: DashRow) => r.amount);
    forall i | 0 <= i < |done| ensures Earning(done[i]) >= 0.0 {
      EarningNonNegative(done[i]);
    }
    Lists.SumNonNegative(done, Earning);
  }

  /** `completed` is none of the statuses the pages compare against or
      write: over rows carrying only those, total earnings are 0. */
  lemma EarningsZeroForKnownStatuses(rows: seq<DashRow>)
    requires forall i :: 0 <= i < |rows| ==> !rows[i].status.Other?
    ensures TotalEarnings(rows) == 0.0
  {
    Lists.FilterNone(rows, (r: DashRow) => r.status == Completed);
  }

  /** `referralsRes.count || 0`. */
  function ReferralCountShown(count: Option<nat>): (n: nat)
    ensures count.None? ==> n == 0
    ensures count.Some? ==> n == count.value
  {
    count.GetOr(0)
  }
}
