/** The admin "Withdrawal Management" page: a fixed list of withdrawal
    requests, searched and filtered by status, the count and total of the
    pending ones, and approve or reject on a pending request. */
module AdminWithdrawals {
  import opened Wrappers
  import opened Text
  import opened JsNumber
  import opened Notices
  import Lists
  import AdminReview

  datatype WithdrawalRequest = WithdrawalRequest(id: nat, user: string, email: string, amount: string,
                                                 payoutMethod: string, wallet: string, status: string,
                                                 requestDate: string, processedDate: Option<string>)

  /** The list the page shows; the two pending requests are named because
      the page's total adds up their amounts. */
  const JohnDoeRequest := WithdrawalRequest(1, "John Doe", "john.doe@email.com", "$5,000", "Bank Transfer", "****4521", "pending", "2024-04-10", None)
  const JaneSmithRequest := WithdrawalRequest(2, "Jane Smith", "jane.smith@email.com", "$2,500", "Bitcoin", "bc1q...xyz", "pending", "2024-04-10", None)
  const Withdrawals: seq<WithdrawalRequest> := [
    JohnDoeRequest,
    JaneSmithRequest,
    WithdrawalRequest(3, "Mike Wilson", "mike.wilson@email.com", "$10,000", "USDT", "0x...abc", "approved", "2024-04-09", Some("2024-04-10")),
    WithdrawalRequest(4, "Sarah Jones", "sarah.jones@email.com", "$1,500", "Ethereum", "0x...def", "completed", "2024-04-08", Some("2024-04-09")),
    WithdrawalRequest(5, "Alex Brown", "alex.brown@email.com", "$3,000", "Bank Transfer", "****8745", "rejected", "2024-04-07", Some("2024-04-08"))
  ]

  predicate Kept(w: WithdrawalRequest, term: string, filter: string) {
    AdminReview.NameOrEmailMatches(w.user, w.email, term) && AdminReview.StatusFilterMatches(w.status, filter)
  }

  /** `filteredWithdrawals`: the requests matching the search and the status
      filter, in their original order. */
  function FilteredWithdrawals(rows: seq<WithdrawalRequest>, term: string, filter: string): (r: seq<WithdrawalRequest>)
    ensures forall i :: 0 <= i < |r| ==> r[i] in rows && Kept(r[i], term, filter)
    ensures forall i :: 0 <= i < |rows| && Kept(rows[i], term, filter) ==> rows[i] in r
    ensures Lists.IsSubsequence(r, rows)
  {
    Lists.Filter(rows, (w: WithdrawalRequest) => Kept(w, term, filter))
  }

  /** No search and the `all` filter show every request. */
  lemma NoSearchShowsAll(rows: seq<WithdrawalRequest>)
    ensures FilteredWithdrawals(rows, "", "all") == rows
  {
    forall i | 0 <= i < |rows| ensures Kept(rows[i], "", "all") {
      AdminReview.EmptyTermMatches(rows[i].user, rows[i].email);
    }
    Lists.FilterAll(rows, (w: WithdrawalRequest) => Kept(w, "", "all"));
  }

  predicate IsPending(w: WithdrawalRequest) { w.status == "pending" }

  /** `parseFloat(amount.replace(/[$,]/g, ""))`. */
  function AmountValue(amount: string): (r: Option<real>)
    ensures (forall i :: 0 <= i < |amount| ==> amount[i] != '$' && amount[i] != ',') ==> r == ParseFloat(amount)
  {
    var stripped := RemoveAll(amount, {'$', ','});
    assert (forall i :: 0 <= i < |amount| ==> amount[i] != '$' && amount[i] != ',') ==> stripped == amount by {
      if forall i :: 0 <= i < |amount| ==> amount[i] != '$' && amount[i] != ',' {
        RemoveAllNone(amount, {'$', ','});
      }
    }
    ParseFloat(stripped)
  }

  /** A dollar amount written without separators reads back as its number. */
  lemma DollarAmountValue(n: nat)
    ensures AmountValue("$" + NatToString(n)) == Some(n as real)
  {
    var d := NatToString(n);
    RemoveAllAppend("$", d, {'$', ','});
    assert RemoveAll("$", {'$', ','}) == "";
    RemoveAllNone(d, {'$', ','});
    assert "" + d == d;
    ParseNatText(n);
  }

  /** JavaScript addition with `NaN` (here `None`) absorbing. */
  function Plus(a: Option<real>, b: Option<real>): Option<real> {
    if a.Some? && b.Some? then Some(a.value + b.value) else None
  }

  /** `reduce((sum, v) => sum + v, acc)` over parsed amounts. */
  function AddAll(vs: seq<Option<real>>, acc: Option<real>): Option<real> {
    if vs == [] then acc else AddAll(vs[1..], Plus(acc, vs[0]))
  }

  /** The plain sum of the amounts that parsed. */
  function SumParsed(vs: seq<Option<real>>): real {
    if vs == [] then 0.0 else vs[0].GetOr(0.0) + SumParsed(vs[1..])
  }

  lemma {:induction false} AddAllSum(vs: seq<Option<real>>, acc: real)
    requires forall i :: 0 <= i < |vs| ==> vs[i].Some?
    ensures AddAll(vs, Some(acc)) == Some(acc + SumParsed(vs))
  {
    if vs != [] {
      AddAllSum(vs[1..], acc + vs[0].value);
    }
  }

  lemma {:induction false} AddAllNaN(vs: seq<Option<real>>, acc: Option<real>)
    requires acc.None? || None in vs
    ensures AddAll(vs, acc) == None
  {
    if vs != [] {
      var next := Plus(acc, vs[0]);
      if next.Some? {
        assert vs[0] != None;
        assert None in vs[1..];
      }
      AddAllNaN(vs[1..], next);
    }
  }

  /** The pending requests' amounts, each read by `parse`. */
  function PendingAmountsBy(rows: seq<WithdrawalRequest>, parse: string -> Option<real>): (vs: seq<Option<real>>)
    ensures |vs| == PendingCount(rows)
  {
    var pending := Lists.Filter(rows, IsPending);
    seq(|pending|, i requires 0 <= i < |pending| => parse(pending[i].amount))
  }

  /** The reduce behind `pendingTotal`, for any reading of the amounts: when
      every pending amount reads as a number the total is their sum, and one
      that reads as `NaN` makes the total `NaN`. */
  lemma PendingTotalIsSum(rows: seq<WithdrawalRequest>, parse: string -> Option<real>)
    ensures None !in PendingAmountsBy(rows, parse) ==>
      AddAll(PendingAmountsBy(rows, parse), Some(0.0)) == Some(SumParsed(PendingAmountsBy(rows, parse)))
    ensures None in PendingAmountsBy(rows, parse) ==> AddAll(PendingAmountsBy(rows, parse), Some(0.0)) == None
  {
    var vs := PendingAmountsBy(rows, parse);
    if None !in vs {
      forall i | 0 <= i < |vs| ensures vs[i].Some? {
        assert vs[i] in vs;
      }
      AddAllSum(vs, 0.0);
    } else {
      AddAllNaN(vs, Some(0.0));
    }
  }

  /** `pendingTotal`: the amounts of the pending requests, stripped of `$`
      and `,` and parsed, added up; `None` when one of them is `NaN`. */
  function PendingTotal(rows: seq<WithdrawalRequest>): (t: Option<real>)
    ensures None !in PendingAmountsBy(rows, AmountValue) ==> t == Some(SumParsed(PendingAmountsBy(rows, AmountValue)))
    ensures None in PendingAmountsBy(rows, AmountValue) ==> t == None
  {
    PendingTotalIsSum(rows, AmountValue);
    AddAll(PendingAmountsBy(rows, AmountValue), Some(0.0))
  }

  /** The status counts the page shows. */
  function PendingCount(rows: seq<WithdrawalRequest>): nat { Lists.Count(rows, IsPending) }
  function CompletedCount(rows: seq<WithdrawalRequest>): nat { Lists.Count(rows, (w: WithdrawalRequest) => w.status == "completed") }
  function RejectedCount(rows: seq<WithdrawalRequest>): nat { Lists.Count(rows, (w: WithdrawalRequest) => w.status == "rejected") }

  /** Each request is counted on at most one card, so the three cards never
      total more than the list, and they total exactly the list when every
      status is `pending`, `completed` or `rejected`. */
  lemma StatCountsPartition(rows: seq<WithdrawalRequest>)
    ensures PendingCount(rows) + CompletedCount(rows) + RejectedCount(rows) <= |rows|
    ensures (forall i :: 0 <= i < |rows| ==> rows[i].status in {"pending", "completed", "rejected"}) ==>
      PendingCount(rows) + CompletedCount(rows) + RejectedCount(rows) == |rows|
  {
    Lists.CountThree(rows, IsPending, (w: WithdrawalRequest) => w.status == "completed",
                     (w: WithdrawalRequest) => w.status == "rejected");
  }

  /** An amount whose digits, once `$` and `,` are dropped, spell `n` reads
      as `n`. */
  lemma AmountFromDigits(amount: string, n: nat)
    requires RemoveAll(amount, {'$', ','}) == NatToString(n)
    ensures AmountValue(amount) == Some(n as real)
  {
    ParseNatText(n);
  }

  lemma FiveThousand()
    ensures AmountValue("$5,000") == Some(5000.0)
  {
    assert NatToString(5000) == "5000";
    AmountFromDigits("$5,000", 5000);
  }

  lemma TwentyFiveHundred()
    ensures AmountValue("$2,500") == Some(2500.0)
  {
    assert NatToString(2500) == "2500";
    AmountFromDigits("$2,500", 2500);
  }

  /** The page's list holds two pending requests, its first two. */
  lemma ShownPending()
    ensures Lists.Filter(Withdrawals, IsPending) == Withdrawals[..2]
  {
    var w := Withdrawals;
    assert w == w[..2] + w[2..];
    Lists.FilterAll(w[..2], IsPending);
    Lists.FilterNone(w[2..], IsPending);
    Lists.FilterAppend(w[..2], w[2..], IsPending);
  }

  lemma ShownCompleted()
    ensures CompletedCount(Withdrawals) == 1
  {
    var w := Withdrawals;
    var completed := (r: WithdrawalRequest) => r.status == "completed";
    assert w == w[..3] + w[3..];
    Lists.FilterNone(w[..3], completed);
    assert w[3..] == w[3..4] + w[4..];
    Lists.FilterAll(w[3..4], completed);
    Lists.FilterNone(w[4..], completed);
    Lists.FilterAppend(w[3..4], w[4..], completed);
    Lists.FilterAppend(w[..3], w[3..], completed);
  }

  lemma ShownRejected()
    ensures RejectedCount(Withdrawals) == 1
  {
    var w := Withdrawals;
    var rejected := (r: WithdrawalRequest) => r.status == "rejected";
    assert w == w[..4] + w[4..];
    Lists.FilterNone(w[..4], rejected);
    Lists.FilterAll(w[4..], rejected);
    Lists.FilterAppend(w[..4], w[4..], rejected);
  }

  /** On the page's list: two pending requests, one completed, one
      rejected. */
  lemma ShownCounts()
    ensures PendingCount(Withdrawals) == 2 && CompletedCount(Withdrawals) == 1 && RejectedCount(Withdrawals) == 1
  {
    ShownPending();
    ShownCompleted();
    ShownRejected();
  }

  /** Two pending requests that read as `x` and `y` total `x + y`. */
  lemma TwoPendingTotal(rows: seq<WithdrawalRequest>, parse: string -> Option<real>,
                        a: WithdrawalRequest, b: WithdrawalRequest, x: real, y: real)
    requires Lists.Filter(rows, IsPending) == [a, b]
    requires parse(a.amount) == Some(x) && parse(b.amount) == Some(y)
    ensures AddAll(PendingAmountsBy(rows, parse), Some(0.0)) == Some(x + y)
  {
    var vs := PendingAmountsBy(rows, parse);
    assert |vs| == 2 && vs[0] == Some(x) && vs[1] == Some(y);
    var rest := vs[1..];
    assert rest[0] == Some(y) && rest[1..] == [];
    assert AddAll(rest, Some(0.0 + x)) == AddAll(rest[1..], Some(0.0 + x + y));
  }

  /** The reduce over the page's list, for any reading of the amounts that
      gives the two pending ones as 5000 and 2500. */
  lemma ShownTotalBy(parse: string -> Option<real>)
    requires parse("$5,000") == Some(5000.0) && parse("$2,500") == Some(2500.0)
    ensures AddAll(PendingAmountsBy(Withdrawals, parse), Some(0.0)) == Some(7500.0)
  {
    ShownPending();
    assert Withdrawals[..2] == [JohnDoeRequest, JaneSmithRequest];
    TwoPendingTotal(Withdrawals, parse, JohnDoeRequest, JaneSmithRequest, 5000.0, 2500.0);
  }

  /** The pending requests of the page's list come to $7,500. */
  lemma ShownPendingTotal()
    ensures PendingTotal(Withdrawals) == Some(7500.0)
  {
    FiveThousand();
    TwentyFiveHundred();
    ShownTotalBy(AmountValue);
  }

  /** Approve and reject are offered, in the row and in the details dialog,
      exactly for a pending request. */
  lemma DecisionsOnlyWhenPending(w: WithdrawalRequest)
    ensures AdminReview.Approve in AdminReview.RowControls(w.status) <==> IsPending(w)
    ensures AdminReview.Reject in AdminReview.RowControls(w.status) <==> IsPending(w)
    ensures AdminReview.Approve in AdminReview.DialogControls(w.status) <==> IsPending(w)
    ensures AdminReview.Reject in AdminReview.DialogControls(w.status) <==> IsPending(w)
  {
  }

  class AdminWithdrawalsPage {
    var searchTerm: string
    var filter: string
    var selected: Option<WithdrawalRequest>

    constructor ()
      ensures searchTerm == "" && filter == "all" && selected.None?
    {
      searchTerm := "";
      filter := "all";
      selected := None;
    }

    function Shown(): seq<WithdrawalRequest>
      reads this
    {
      FilteredWithdrawals(Withdrawals, searchTerm, filter)
    }

    method Search(term: string)
      modifies this
      ensures searchTerm == term && filter == old(filter) && selected == old(selected)
    {
      searchTerm := term;
    }

    method SetFilter(status: string)
      modifies this
      ensures filter == status && searchTerm == old(searchTerm) && selected == old(selected)
    {
      filter := status;
    }

    method ViewDetails(w: Option<WithdrawalRequest>)
      modifies this
      ensures selected == w && searchTerm == old(searchTerm) && filter == old(filter)
    {
      selected := w;
    }

    /** `handleApprove`: a notice, and the dialog closed. */
    method HandleApprove(id: nat) returns (t: Toast)
      modifies this
      ensures t == Success("Withdrawal approved", "Withdrawal #" + NatToString(id) + " has been approved and will be processed.")
      ensures selected.None? && searchTerm == old(searchTerm) && filter == old(filter)
    {
      t := Success("Withdrawal approved", "Withdrawal #" + NatToString(id) + " has been approved and will be processed.");
      selected := None;
    }

    /** `handleReject`: a destructive notice, and the dialog closed. */
    method HandleReject(id: nat) returns (t: Toast)
      modifies this
      ensures t == Error("Withdrawal rejected", "Withdrawal #" + NatToString(id) + " has been rejected.")
      ensures selected.None? && searchTerm == old(searchTerm) && filter == old(filter)
    {
      t := Error("Withdrawal rejected", "Withdrawal #" + NatToString(id) + " has been rejected.");
      selected := None;
    }
  }
}
