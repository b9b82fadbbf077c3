/** The admin "Investment Management" page: the searchable table of all
    investments, confirming or rejecting a pending one, and the progress
    column. */
module AdminInvestments {
  import opened Wrappers
  import opened Text
  import opened JsNumber
  import opened Notices
  import opened Investments
  import MyInvestment
  import Lists
  import Progress
  import Lifecycle

  /** A row of the investment-details view; `None` stands for a null column. */
  datatype AdminRow = AdminRow(id: nat, userId: string, amount: real, status: Status,
                               start: Option<int>, end: Option<int>,
                               fullName: Option<string>, email: Option<string>,
                               planName: string, planDurationDays: Option<int>)

  /** The search: the name, email, plan or status contains the term, all
      compared in lower case; a null name or email searches as "". */
  predicate Matches(row: AdminRow, term: string) {
    IncludesIgnoreCase(row.fullName.GetOr(""), term)
    || IncludesIgnoreCase(row.email.GetOr(""), term)
    || IncludesIgnoreCase(row.planName, term)
    || IncludesIgnoreCase(row.status.Name(), term)
  }

  /** `filteredInvestments`: the matching rows, in their original order. */
  function FilteredInvestments(rows: seq<AdminRow>, term: string): (r: seq<AdminRow>)
    ensures forall i :: 0 <= i < |r| ==> r[i] in rows && Matches(r[i], term)
    ensures forall i :: 0 <= i < |rows| && Matches(rows[i], term) ==> rows[i] in r
    ensures Lists.IsSubsequence(r, rows)
  {
    Lists.Filter(rows, (row: AdminRow) => Matches(row, term))
  }

  /** An empty search shows every row. */
  lemma EmptySearchKeepsAll(rows: seq<AdminRow>)
    ensures FilteredInvestments(rows, "") == rows
  {
    forall i | 0 <= i < |rows| ensures Matches(rows[i], "") {
      IncludesEmpty(rows[i].fullName.GetOr(""));
    }
    Lists.FilterAll(rows, (row: AdminRow) => Matches(row, ""));
  }

  /** The admin badge: its own labels for `pending`, `approved`, `denied` and
      `matured`; any other status verbatim. */
  function AdminBadge(s: Status): (b: MyInvestment.Badge)
    ensures s == Pending ==> b == MyInvestment.Badge("Pending", MyInvestment.Amber)
    ensures s == Approved ==> b == MyInvestment.Badge("Approved", MyInvestment.Green)
    ensures s == Denied ==> b == MyInvestment.Badge("Denied", MyInvestment.Red)
    ensures s == Matured ==> b == MyInvestment.Badge("Matured", MyInvestment.Blue)
    ensures b.tone == MyInvestment.Outline <==> !(s.Pending? || s.Approved? || s.Denied? || s.Matured?)
    ensures b.tone == MyInvestment.Outline ==> b.text == s.Name()
  {
    match s
    case Pending => MyInvestment.Badge("Pending", MyInvestment.Amber)
    case Approved => MyInvestment.Badge("Approved", MyInvestment.Green)
    case Denied => MyInvestment.Badge("Denied", MyInvestment.Red)
    case Matured => MyInvestment.Badge("Matured", MyInvestment.Blue)
    case _ => MyInvestment.Badge(s.Name(), MyInvestment.Outline)
  }

  /** The progress column as the table computes it: the status-aware
      `calculateProgress` called with two arguments, so its status is
      `undefined` and the pending guard never fires. */
  function TableProgressAsWritten(row: AdminRow, now: int): (p: int)
    ensures p == Progress.CalculateProgress(row.start, row.end, now)
  {
    Progress.AdminProgress(row.start, row.end, None, now)
  }

  /** A pending row whose dates straddle `now` shows 50% in the table. */
  lemma PendingRowShowsProgressAsWritten()
    ensures TableProgressAsWritten(AdminRow(7, "u", 100.0, Pending, Some(0), Some(100), None, None, "Gold", Some(1)), 50) == 50
  {
  }

  /** The progress column with the row's status passed, as the function's
      signature intends: 0 for a pending row, otherwise the elapsed share. */
  function TableProgress(row: AdminRow, now: int): (p: int)
    ensures 0 <= p <= 100
    ensures row.status == Pending ==> p == 0
    ensures row.status != Pending ==> p == TableProgressAsWritten(row, now)
  {
    Progress.AdminProgress(row.start, row.end, Some(row.status), now)
  }

  /** The two columns differ only on pending rows. */
  lemma ProgressColumnsDiffer(row: AdminRow, now: int)
    requires TableProgress(row, now) != TableProgressAsWritten(row, now)
    ensures row.status == Pending && TableProgressAsWritten(row, now) > 0
  {
  }

  /** The confirm and reject buttons (in the table and in the dialog) are
      shown for a row exactly when its status is `pending`, which is exactly
      when the lifecycle offers those decisions. */
  predicate DecisionControlsShown(row: AdminRow) {
    row.status == Pending
  }

  lemma ControlsFollowLifecycle(row: AdminRow)
    ensures DecisionControlsShown(row) <==> Lifecycle.Confirm in Lifecycle.Offered(row.status)
    ensures DecisionControlsShown(row) <==> Lifecycle.Reject in Lifecycle.Offered(row.status)
  {
  }

  /** A write the page asks of the backend, in the order issued. */
  datatype Call =
    | SetStatus(id: nat, status: Status, dates: Option<(int, int)>)
    | CreditBalance(userId: string, amount: real)

  /** One click: the writes issued, the notification (none when the id is not
      listed), and whether it succeeded (the selection is then cleared and
      the data re-fetched). */
  datatype Outcome = Outcome(calls: seq<Call>, toast: Option<Toast>, succeeded: bool)

  /** `plan_duration_days || 0`. */
  function DurationOrZero(d: Option<int>): (n: int)
    ensures d.None? ==> n == 0
  {
    d.GetOr(0)
  }

  /** `handleConfirm(id)` at time `now`: the listed row is set `approved` with
      a fresh term starting `now`, and only after that succeeded is the user
      credited with exactly the row's amount. An id not in the list does
      nothing. */
  function ConfirmOutcome(rows: seq<AdminRow>, id: nat, now: int, updateReply: Reply<()>, creditReply: Reply<()>): (o: Outcome)
    ensures Lists.Find(rows, (r: AdminRow) => r.id == id).None? ==> o == Outcome([], None, false)
    ensures Lists.Find(rows, (r: AdminRow) => r.id == id).Some? ==>
      var row := Lists.Find(rows, (r: AdminRow) => r.id == id).value;
      && |o.calls| >= 1
      && o.calls[0] == SetStatus(id, Approved, Some((now, TermEnd(now, DurationOrZero(row.planDurationDays)))))
      && (updateReply.Failed? ==> o == Outcome(o.calls[..1], Some(Error("Error confirming investment", updateReply.message)), false))
      && (updateReply.Data? ==> o.calls == o.calls[..1] + [CreditBalance(row.userId, row.amount)])
      && (o.succeeded <==> updateReply.Data? && creditReply.Data?)
      && (updateReply.Data? && creditReply.Failed? ==>
            o.toast == Some(Error("Error confirming investment", creditReply.message)))
    ensures o.succeeded ==> o.toast == Some(Success("Investment Confirmed", "Investment #" + NatToString(id) + " has been activated."))
  {
    match Lists.Find(rows, (r: AdminRow) => r.id == id)
    case None => Outcome([], None, false)
    case Some(row) =>
      var update := SetStatus(id, Approved, Some((now, TermEnd(now, DurationOrZero(row.planDurationDays)))));
      if updateReply.Failed? then
        Outcome([update], Some(Error("Error confirming investment", updateReply.message)), false)
      else
        var calls := [update, CreditBalance(row.userId, row.amount)];
        if creditReply.Failed? then
          Outcome(calls, Some(Error("Error confirming investment", creditReply.message)), false)
        else
          Outcome(calls, Some(Success("Investment Confirmed", "Investment #" + NatToString(id) + " has been activated.")), true)
  }

  /** A listed row with no plan duration is confirmed with an empty term. */
  lemma ConfirmWithoutDuration(rows: seq<AdminRow>, id: nat, now: int, updateReply: Reply<()>, creditReply: Reply<()>)
    requires Lists.Find(rows, (r: AdminRow) => r.id == id).Some?
    requires Lists.Find(rows, (r: AdminRow) => r.id == id).value.planDurationDays.None?
    ensures ConfirmOutcome(rows, id, now, updateReply, creditReply).calls[0] == SetStatus(id, Approved, Some((now, now)))
  {
  }

  /** Confirming a pending row writes the status the lifecycle gives. */
  lemma ConfirmFollowsLifecycle(rows: seq<AdminRow>, i: int, now: int, updateReply: Reply<()>, creditReply: Reply<()>)
    requires 0 <= i < |rows| && rows[i].status == Pending
    requires forall j :: 0 <= j < i ==> rows[j].id != rows[i].id
    ensures ConfirmOutcome(rows, rows[i].id, now, updateReply, creditReply).calls[0].status
            == Lifecycle.ClientWrite(rows[i].status, Lifecycle.Confirm)
  {
    var o := ConfirmOutcome(rows, rows[i].id, now, updateReply, creditReply);
    assert Lists.Find(rows, (r: AdminRow) => r.id == rows[i].id).Some?;
  }

  /** `handleReject(id)`: the row is set `denied`; no balance call is made.
      The success notice is shown in the destructive style, as an error is. */
  function RejectOutcome(id: nat, reply: Reply<()>): (o: Outcome)
    ensures o.calls == [SetStatus(id, Denied, None)]
    ensures o.succeeded <==> reply.Data?
    ensures reply.Failed? ==> o.toast == Some(Error("Error rejecting investment", reply.message))
    ensures reply.Data? ==> o.toast == Some(Error("Investment Rejected", "Investment #" + NatToString(id) + " has been rejected."))
  {
    if reply.Failed? then Outcome([SetStatus(id, Denied, None)], Some(Error("Error rejecting investment", reply.message)), false)
    else Outcome([SetStatus(id, Denied, None)], Some(Error("Investment Rejected", "Investment #" + NatToString(id) + " has been rejected.")), true)
  }

  /** Neither decision moves funds except by the one credit of a confirmation. */
  lemma RejectMovesNoFunds(id: nat, reply: Reply<()>)
    ensures forall i :: 0 <= i < |RejectOutcome(id, reply).calls| ==> !RejectOutcome(id, reply).calls[i].CreditBalance?
    ensures RejectOutcome(id, reply).calls[0].status == Lifecycle.ClientWrite(Pending, Lifecycle.Reject)
  {
  }

  class AdminInvestmentsPage {
    var searchTerm: string
    var investments: seq<AdminRow>
    var selected: Option<AdminRow>
    var loading: bool

    constructor ()
      ensures searchTerm == "" && investments == [] && selected.None? && loading
    {
      searchTerm := "";
      investments := [];
      selected := None;
      loading := true;
    }

    function Shown(): seq<AdminRow>
      reads this
    {
      FilteredInvestments(investments, searchTerm)
    }

    method Search(term: string)
      modifies this
      ensures searchTerm == term
      ensures investments == old(investments) && selected == old(selected) && loading == old(loading)
    {
      searchTerm := term;
    }

    method ViewDetails(row: Option<AdminRow>)
      modifies this
      ensures selected == row
      ensures investments == old(investments) && searchTerm == old(searchTerm) && loading == old(loading)
    {
      selected := row;
    }

    /** `fetchData` finishing: a reply replaces the rows (`data || []`), a
        failure keeps them and reports; loading ends either way. */
    method FetchCompleted(reply: Reply<Option<seq<AdminRow>>>) returns (t: Option<Toast>)
      modifies this
      ensures !loading
      ensures reply.Data? ==> investments == reply.data.GetOr([]) && t.None?
      ensures reply.Failed? ==> investments == old(investments)
                                && t == Some(Error("Error fetching investments", reply.message))
      ensures searchTerm == old(searchTerm) && selected == old(selected)
    {
      if reply.Data? {
        investments := reply.data.GetOr([]);
        t := None;
      } else {
        t := Some(Error("Error fetching investments", reply.message));
      }
      loading := false;
    }

    /** `handleConfirm`: the outcome above on the listed rows; the selection
        is cleared only on success. */
    method HandleConfirm(id: nat, now: int, updateReply: Reply<()>, creditReply: Reply<()>) returns (o: Outcome)
      modifies this
      ensures o == ConfirmOutcome(old(investments), id, now, updateReply, creditReply)
      ensures selected == if o.succeeded then None else old(selected)
      ensures investments == old(investments) && searchTerm == old(searchTerm) && loading == old(loading)
    {
      o := ConfirmOutcome(investments, id, now, updateReply, creditReply);
      if o.succeeded {
        selected := None;
      }
    }

    /** `handleReject`: as above with the reject outcome. */
    method HandleReject(id: nat, reply: Reply<()>) returns (o: Outcome)
      modifies this
      ensures o == RejectOutcome(id, reply)
      ensures selected == if o.succeeded then None else old(selected)
      ensures investments == old(investments) && searchTerm == old(searchTerm) && loading == old(loading)
    {
      o := RejectOutcome(id, reply);
      if o.succeeded {
        selected := None;
      }
    }
  }
}
