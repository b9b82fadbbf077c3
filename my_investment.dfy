/** The "My Investments" page: the status badge, and the page state that the
    withdraw, reinvest and fetch handlers update. The wallet page carries the
    same handlers and uses this class too. */
module MyInvestment {
  import opened Wrappers
  import opened Notices
  import opened Investments

  datatype Tone = Amber | Green | Info | Blue | Gray | Purple | Red | Outline

  datatype Badge = Badge(text: string, tone: Tone)

  /** The statuses the card badge names itself. */
  predicate HasOwnBadge(s: Status) {
    s.Pending? || s.Active? || s.Approved? || s.Matured? || s.Withdrawn? || s.Reinvested?
  }

  /** `getStatusBadge`: `active` and `approved` share the "Active" badge; every
      other known status has its own; an unknown one is shown verbatim. */
  function StatusBadge(s: Status): (b: Badge)
    ensures (s == Active || s == Approved) <==> b == Badge("Active", Green)
    ensures b.tone == Outline <==> !HasOwnBadge(s)
    ensures b.tone == Outline ==> b.text == s.Name()
  {
    match s
    case Pending => Badge("Pending", Amber)
    case Active => Badge("Active", Green)
    case Approved => Badge("Active", Green)
    case Matured => Badge("Matured", Blue)
    case Withdrawn => Badge("Withdrawn", Gray)
    case Reinvested => Badge("Reinvested", Purple)
    case _ => Badge(s.Name(), Outline)
  }

  /** The badge tells statuses apart, except `active` from `approved`. */
  lemma BadgeDistinguishes(s1: Status, s2: Status)
    requires WellFormed(s1) && WellFormed(s2)
    requires StatusBadge(s1) == StatusBadge(s2)
    requires s1 != s2
    ensures {s1, s2} == {Active, Approved}
  {
    if StatusBadge(s1).tone == Outline {
      FromNameOfName(s1);
      FromNameOfName(s2);
      assert false;
    }
  }

  const NotMaturedText: string := "This investment is not matured or has already been withdrawn."

  /** What a finished `withdraw_investment` call reports: success only when the
      returned flag is exactly `true`; a `false` or absent flag becomes the
      "not matured" error; a failed call shows its own message. */
  function WithdrawToast(reply: Reply<Option<bool>>): (t: Toast)
    ensures t.Success? <==> reply == Data(Some(true))
    ensures reply.Data? && reply.data != Some(true) ==> t == Error("Withdrawal Failed", NotMaturedText)
    ensures reply.Failed? ==> t == Error("Withdrawal Failed", ErrorText(reply.message))
  {
    match reply
    case Failed(m) => Error("Withdrawal Failed", ErrorText(m))
    case Data(flag) =>
      if flag == Some(true) then
        Success("Withdrawal successful!", "The investment amount has been added to your available balance.")
      else Error("Withdrawal Failed", NotMaturedText)
  }

  class InvestmentsPage {
    var investments: seq<Investment>
    var loading: bool
    var userId: Option<string>
    var withdrawingId: Option<int>
    var selected: Option<Investment>

    constructor ()
      ensures investments == [] && loading && userId.None? && withdrawingId.None? && selected.None?
    {
      investments := [];
      loading := true;
      userId := None;
      withdrawingId := None;
      selected := None;
    }

    /** `fetchUserAndData`: with a signed-in user the page records the id and
        fetches; without one it stops loading and reports. */
    method UserResolved(user: Option<string>) returns (fetch: bool, t: Option<Toast>)
      modifies this
      ensures fetch <==> user.Some?
      ensures user.Some? ==> userId == user && loading && t.None?
      ensures user.None? ==> userId == old(userId) && !loading
                             && t == Some(Error("You must be logged in to view your investments.", ""))
      ensures investments == old(investments) && withdrawingId == old(withdrawingId) && selected == old(selected)
    {
      loading := true;
      if user.Some? {
        userId := user;
        fetch := true;
        t := None;
      } else {
        loading := false;
        fetch := false;
        t := Some(Error("You must be logged in to view your investments.", ""));
      }
    }

    /** The details dialog opens on the chosen investment and closes to nothing. */
    method ViewDetails(inv: Option<Investment>)
      modifies this
      ensures selected == inv
      ensures investments == old(investments) && userId == old(userId)
      ensures loading == old(loading) && withdrawingId == old(withdrawingId)
    {
      selected := inv;
    }

    /** The Withdraw control of a row is disabled while that row's call is in flight. */
    predicate IsWithdrawing(id: int)
      reads this
    {
      withdrawingId == Some(id)
    }

    /** `handleWithdraw`, up to the call: the row is marked as in flight. */
    method BeginWithdraw(id: int)
      modifies this
      ensures withdrawingId == Some(id)
      ensures investments == old(investments) && userId == old(userId)
      ensures loading == old(loading) && selected == old(selected)
    {
      withdrawingId := Some(id);
    }

    /** `handleWithdraw`, after the call: report, re-fetch on success when a
        user is known, and clear the in-flight mark on every path (`finally`). */
    method FinishWithdraw(reply: Reply<Option<bool>>) returns (t: Toast, refetch: bool)
      modifies this
      ensures t == WithdrawToast(reply)
      ensures refetch <==> reply == Data(Some(true)) && userId.Some?
      ensures withdrawingId.None?
      ensures investments == old(investments) && userId == old(userId)
      ensures loading == old(loading) && selected == old(selected)
    {
      t := WithdrawToast(reply);
      refetch := t.Success? && userId.Some?;
      withdrawingId := None;
    }

    /** `handleReinvest`: the backend creates the new investment; the page
        reports and re-fetches. No page state changes. */
    method HandleReinvest(reply: Reply<()>) returns (t: Toast, refetch: bool)
      ensures reply.Failed? ==> t == Error("Reinvestment failed", reply.message) && !refetch
      ensures reply.Data? ==> t.Success? && (refetch <==> userId.Some?)
    {
      match reply
      case Failed(m) =>
        t := Error("Reinvestment failed", m);
        refetch := false;
      case Data(_) =>
        t := Success("Reinvestment successful!",
                     "A new investment has been created with the same plan, including returns and bonus.");
        refetch := userId.Some?;
    }

    /** `fetchData` finishing: a reply replaces the list (`data || []`); a failed
        query keeps it and reports; loading ends either way. */
    method FetchCompleted(reply: Reply<Option<seq<Investment>>>) returns (t: Option<Toast>)
      modifies this
      ensures !loading
      ensures reply.Data? ==> investments == reply.data.GetOr([]) && t.None?
      ensures reply.Failed? ==> investments == old(investments)
                                && t == Some(Error("Failed to fetch investments", reply.message))
      ensures userId == old(userId) && withdrawingId == old(withdrawingId) && selected == old(selected)
    {
      if reply.Data? {
        investments := reply.data.GetOr([]);
        t := None;
      } else {
        t := Some(Error("Failed to fetch investments", reply.message));
      }
      loading := false;
    }
  }
}
