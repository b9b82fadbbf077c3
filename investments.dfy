/** The investment record as the investor pages read it, its status, and the
    estimated-returns rule. */
module Investments {
  import opened Wrappers

  /** Every status string a page compares against; anything else the backend
      returns is kept verbatim in `Other`. */
  datatype Status =
    | Pending | Active | Approved | Rejected | Denied | Matured | Withdrawn | Reinvested
    | Other(name: string)
  {
    /** The string the backend stores. */
    function Name(): string {
      match this
      case Pending => "pending"
      case Active => "active"
      case Approved => "approved"
      case Rejected => "rejected"
      case Denied => "denied"
      case Matured => "matured"
      case Withdrawn => "withdrawn"
      case Reinvested => "reinvested"
      case Other(n) => n
    }
  }

  const KnownNames: set<string> :=
    {"pending", "active", "approved", "rejected", "denied", "matured", "withdrawn", "reinvested"}

  /** `Other` never spells a known status. */
  predicate WellFormed(s: Status) {
    s.Other? ==> s.name !in KnownNames
  }

  /** The status a stored string denotes. */
  function FromName(n: string): (s: Status)
    ensures s.Name() == n
    ensures WellFormed(s)
  {
    if n == "pending" then Pending
    else if n == "active" then Active
    else if n == "approved" then Approved
    else if n == "rejected" then Rejected
    else if n == "denied" then Denied
    else if n == "matured" then Matured
    else if n == "withdrawn" then Withdrawn
    else if n == "reinvested" then Reinvested
    else Other(n)
  }

  lemma FromNameOfName(s: Status)
    requires WellFormed(s)
    ensures FromName(s.Name()) == s
  {
  }

  /** The plan columns joined onto an investment row. */
  datatype PlanTerms = PlanTerms(name: string, durationDays: int, dailyRate: real)

  /** `start`/`end` are the parsed dates in milliseconds; `None` is an empty or
      missing date string. */
  datatype Investment = Investment(
    id: int, amount: real, bonus: real, status: Status,
    startDate: Option<int>, endDate: Option<int>, plan: PlanTerms)

  /** `24 * 60 * 60 * 1000`. */
  const MsPerDay: int := 86400000

  /** The end date stored for a term of `days` days starting at `start`. */
  function TermEnd(start: int, days: int): (end: int)
    ensures days >= 0 ==> end >= start
    ensures end - start == days * MsPerDay
  {
    start + days * MsPerDay
  }

  /** The statuses for which an estimate is shown. */
  predicate EarnsReturns(s: Status) {
    s == Active || s == Matured || s == Approved
  }

  /** Simple interest for the full term. */
  function FullTermInterest(amount: real, dailyRate: real, days: int): real {
    amount * (dailyRate / 100.0) * days as real
  }

  /** `calculateReturns`: principal plus full-term simple interest for an
      earning status, and 0 (not the principal) for every other status. */
  function CalculateReturns(inv: Investment): (r: real)
    ensures !EarnsReturns(inv.status) ==> r == 0.0
    ensures EarnsReturns(inv.status) ==>
      r == inv.amount + FullTermInterest(inv.amount, inv.plan.dailyRate, inv.plan.durationDays)
  {
    if !EarnsReturns(inv.status) then 0.0
    else
      var dailyRate := inv.plan.dailyRate / 100.0;
      var durationDays := inv.plan.durationDays;
      var interest := inv.amount * dailyRate * durationDays as real;
      inv.amount + interest
  }

  /** The estimate depends on neither the bonus nor the dates: it assumes the
      full term whatever the elapsed time. */
  lemma ReturnsIgnoreBonusAndDates(inv: Investment, bonus: real, start: Option<int>, end: Option<int>)
    ensures CalculateReturns(inv.(bonus := bonus, startDate := start, endDate := end))
            == CalculateReturns(inv)
  {
  }

  /** With non-negative terms an earning investment never shows less than its principal. */
  lemma ReturnsAtLeastPrincipal(inv: Investment)
    requires EarnsReturns(inv.status)
    requires inv.amount >= 0.0 && inv.plan.dailyRate >= 0.0 && inv.plan.durationDays >= 0
    ensures CalculateReturns(inv) >= inv.amount
  {
    var a, r, d := inv.amount, inv.plan.dailyRate / 100.0, inv.plan.durationDays as real;
    assert a * r >= 0.0;
    assert a * r * d >= 0.0;
  }

  /** 1000 at 2% a day for 10 days is estimated at 1200. */
  lemma ReturnsExample()
    ensures CalculateReturns(Investment(1, 1000.0, 50.0, Active, None, None, PlanTerms("Gold", 10, 2.0)))
            == 1200.0
  {
  }
}
