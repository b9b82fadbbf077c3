/** The admin "KYC Verification" page: a fixed list of identity checks,
    searched and filtered by status, the count of each status, and approve or
    reject on a pending check. */
module AdminKyc {
  import opened Wrappers
  import opened JsNumber
  import opened Notices
  import Lists
  import AdminReview

  datatype KycRequest = KycRequest(id: nat, user: string, email: string, documentType: string,
                                   documentNumber: string, country: string, status: string,
                                   submittedDate: string)

  /** The list the page shows. */
  const KycRequests: seq<KycRequest> := [
    KycRequest(1, "John Doe", "john.doe@email.com", "Passport", "AB123456", "United States", "pending", "2024-04-10"),
    KycRequest(2, "Jane Smith", "jane.smith@email.com", "Driver's License", "DL789012", "Canada", "approved", "2024-04-08"),
    KycRequest(3, "Mike Wilson", "mike.wilson@email.com", "National ID", "NID345678", "United Kingdom", "pending", "2024-04-09"),
    KycRequest(4, "Sarah Jones", "sarah.jones@email.com", "Passport", "CD901234", "Australia", "rejected", "2024-04-07"),
    KycRequest(5, "Alex Brown", "alex.brown@email.com", "Driver's License", "DL567890", "Germany", "pending", "2024-04-10")
  ]

  predicate Kept(k: KycRequest, term: string, filter: string) {
    AdminReview.NameOrEmailMatches(k.user, k.email, term) && AdminReview.StatusFilterMatches(k.status, filter)
  }

  /** `filteredKYC`: the checks matching the search and the status filter, in
      their original order. */
  function FilteredKyc(rows: seq<KycRequest>, term: string, filter: string): (r: seq<KycRequest>)
    ensures forall i :: 0 <= i < |r| ==> r[i] in rows && Kept(r[i], term, filter)
    ensures forall i :: 0 <= i < |rows| && Kept(rows[i], term, filter) ==> rows[i] in r
    ensures Lists.IsSubsequence(r, rows)
  {
    Lists.Filter(rows, (k: KycRequest) => Kept(k, term, filter))
  }

  /** No search and the `all` filter show every check. */
  lemma NoSearchShowsAll(rows: seq<KycRequest>)
    ensures FilteredKyc(rows, "", "all") == rows
  {
    forall i | 0 <= i < |rows| ensures Kept(rows[i], "", "all") {
      AdminReview.EmptyTermMatches(rows[i].user, rows[i].email);
    }
    Lists.FilterAll(rows, (k: KycRequest) => Kept(k, "", "all"));
  }

  /** A status filter keeps exactly the checks of that status. */
  lemma StatusFilterKeepsStatus(rows: seq<KycRequest>, status: string)
    requires status != "all"
    ensures forall k :: k in FilteredKyc(rows, "", status) <==> k in rows && k.status == status
  {
    forall k | k in rows && k.status == status ensures k in FilteredKyc(rows, "", status) {
      AdminReview.EmptyTermMatches(k.user, k.email);
      var i :| 0 <= i < |rows| && rows[i] == k;
    }
  }

  predicate IsPending(k: KycRequest) { k.status == "pending" }
  predicate IsApproved(k: KycRequest) { k.status == "approved" }
  predicate IsRejected(k: KycRequest) { k.status == "rejected" }

  /** The status counts the page shows. */
  function PendingCount(rows: seq<KycRequest>): nat { Lists.Count(rows, IsPending) }
  function ApprovedCount(rows: seq<KycRequest>): nat { Lists.Count(rows, IsApproved) }
  function RejectedCount(rows: seq<KycRequest>): nat { Lists.Count(rows, IsRejected) }

  /** Each request is counted on at most one card, so the three cards never
      total more than the list, and they total exactly the list when every
      status is one of the three. */
  lemma StatCountsPartition(rows: seq<KycRequest>)
    ensures PendingCount(rows) + ApprovedCount(rows) + RejectedCount(rows) <= |rows|
    ensures (forall i :: 0 <= i < |rows| ==> IsPending(rows[i]) || IsApproved(rows[i]) || IsRejected(rows[i])) ==>
      PendingCount(rows) + ApprovedCount(rows) + RejectedCount(rows) == |rows|
  {
    Lists.CountThree(rows, IsPending, IsApproved, IsRejected);
  }

  lemma ShownPending()
    ensures PendingCount(KycRequests) == 3
  {
    var w := KycRequests;
    assert w == w[..2] + w[2..];
    assert w[..2] == w[..1] + w[1..2];
    assert w[2..] == w[2..3] + w[3..4] + w[4..];
    Lists.FilterAll(w[..1], IsPending);
    Lists.FilterNone(w[1..2], IsPending);
    Lists.FilterAll(w[2..3], IsPending);
    Lists.FilterNone(w[3..4], IsPending);
    Lists.FilterAll(w[4..], IsPending);
    Lists.CountAppend(w[..1], w[1..2], IsPending);
    Lists.CountAppend(w[2..3], w[3..4], IsPending);
    Lists.CountAppend(w[2..3] + w[3..4], w[4..], IsPending);
    Lists.CountAppend(w[..2], w[2..], IsPending);
  }

  lemma ShownApproved()
    ensures ApprovedCount(KycRequests) == 1
  {
    var w := KycRequests;
    assert w == w[..1] + w[1..];
    assert w[1..] == w[1..2] + w[2..];
    Lists.FilterNone(w[..1], IsApproved);
    Lists.FilterAll(w[1..2], IsApproved);
    Lists.FilterNone(w[2..], IsApproved);
    Lists.FilterAppend(w[1..2], w[2..], IsApproved);
    Lists.FilterAppend(w[..1], w[1..], IsApproved);
  }

  lemma ShownRejected()
    ensures RejectedCount(KycRequests) == 1
  {
    var w := KycRequests;
    assert w == w[..3] + w[3..];
    assert w[3..] == w[3..4] + w[4..];
    Lists.FilterNone(w[..3], IsRejected);
    Lists.FilterAll(w[3..4], IsRejected);
    Lists.FilterNone(w[4..], IsRejected);
    Lists.FilterAppend(w[3..4], w[4..], IsRejected);
    Lists.FilterAppend(w[..3], w[3..], IsRejected);
  }

  /** On the page's list: three pending checks, one approved, one rejected. */
  lemma ShownCounts()
    ensures PendingCount(KycRequests) == 3 && ApprovedCount(KycRequests) == 1 && RejectedCount(KycRequests) == 1
  {
    ShownPending();
    ShownApproved();
    ShownRejected();
  }

  /** Approve and reject are offered, in the row and in the details dialog,
      exactly for a pending request. */
  lemma DecisionsOnlyWhenPending(k: KycRequest)
    ensures AdminReview.Approve in AdminReview.RowControls(k.status) <==> IsPending(k)
    ensures AdminReview.Reject in AdminReview.RowControls(k.status) <==> IsPending(k)
    ensures AdminReview.Approve in AdminReview.DialogControls(k.status) <==> IsPending(k)
    ensures AdminReview.Reject in AdminReview.DialogControls(k.status) <==> IsPending(k)
  {
  }

  class AdminKycPage {
    var searchTerm: string
    var filter: string
    var selected: Option<KycRequest>

    constructor ()
      ensures searchTerm == "" && filter == "all" && selected.None?
    {
      searchTerm := "";
      filter := "all";
      selected := None;
    }

    function Shown(): seq<KycRequest>
      reads this
    {
      FilteredKyc(KycRequests, searchTerm, filter)
    }

    method Search(term: string)
      modifies this
      ensures searchTerm == term && filter == old(filter) && selected == old(selected)
    {
      searchTerm := term;
    }

    method SetFilter(status: string)
      modifies this
      ensures filter == status && searchTerm == old(searchTerm) && selected == old(selected)
    {
      filter := status;
    }

    method ViewDetails(k: Option<KycRequest>)
      modifies this
      ensures selected == k && searchTerm == old(searchTerm) && filter == old(filter)
    {
      selected := k;
    }

    /** `handleApprove`: a notice, and the dialog closed. */
    method HandleApprove(id: nat) returns (t: Toast)
      modifies this
      ensures t == Success("KYC Approved", "User verification #" + NatToString(id) + " has been approved.")
      ensures selected.None? && searchTerm == old(searchTerm) && filter == old(filter)
    {
      t := Success("KYC Approved", "User verification #" + NatToString(id) + " has been approved.");
      selected := None;
    }

    /** `handleReject`: a destructive notice, and the dialog closed. */
    method HandleReject(id: nat) returns (t: Toast)
      modifies this
      ensures t == Error("KYC Rejected", "User verification #" + NatToString(id) + " has been rejected.")
      ensures selected.None? && searchTerm == old(searchTerm) && filter == old(filter)
    {
      t := Error("KYC Rejected", "User verification #" + NatToString(id) + " has been rejected.");
      selected := None;
    }
  }
}
