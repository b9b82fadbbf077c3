/** What the admin review queues (withdrawal requests and identity checks)
    share: the name-or-email search, the status filter with its `"all"`
    choice, and approve and reject offered only while a request is pending. */
module AdminReview {
  import opened Text

  /** `x.user.toLowerCase().includes(term.toLowerCase()) || x.email…`. */
  predicate NameOrEmailMatches(name: string, email: string, term: string) {
    IncludesIgnoreCase(name, term) || IncludesIgnoreCase(email, term)
  }

  lemma EmptyTermMatches(name: string, email: string)
    ensures NameOrEmailMatches(name, email, "")
  {
    IncludesEmpty(name);
  }

  /** `filter === "all" || x.status === filter`. */
  predicate StatusFilterMatches(status: string, filter: string) {
    filter == "all" || status == filter
  }

  /** The buttons of a request: the details eye, and approve and reject. */
  datatype Control = ViewDetails | Approve | Reject

  /** The buttons in a table row: the eye always, approve and reject only for
      a pending request. */
  function RowControls(status: string): (cs: seq<Control>)
    ensures |cs| >= 1 && cs[0] == ViewDetails
    ensures Approve in cs <==> status == "pending"
    ensures Reject in cs <==> status == "pending"
  {
    [ViewDetails] + (if status == "pending" then [Approve, Reject] else [])
  }

  /** The buttons under the details dialog: approve and reject only for a
      pending request. */
  function DialogControls(status: string): (cs: seq<Control>)
    ensures ViewDetails !in cs
    ensures Approve in cs <==> status == "pending"
    ensures Reject in cs <==> status == "pending"
  {
    if status == "pending" then [Approve, Reject] else []
  }

  /** The dialog offers a decision exactly when the row does. */
  lemma DialogMatchesRow(status: string)
    ensures DialogControls(status) == RowControls(status)[1..]
  {
  }
}
