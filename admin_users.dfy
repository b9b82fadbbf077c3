/** The admin "User Management" page: a fixed list of users searched by name
    or email, the details dialog, and the menu actions, which only post a
    notice. */
module AdminUsers {
  import opened Wrappers
  import opened JsNumber
  import opened Notices
  import Lists
  import AdminReview

  datatype UserRow = UserRow(id: nat, name: string, email: string, balance: string,
                             investments: string, status: string, kyc: string, joined: string)

  /** The list the page shows. */
  const Users: seq<UserRow> := [
    UserRow(1, "John Doe", "john.doe@email.com", "$45,230", "$32,500", "active", "verified", "2024-01-15"),
    UserRow(2, "Jane Smith", "jane.smith@email.com", "$28,400", "$15,000", "active", "verified", "2024-02-20"),
    UserRow(3, "Mike Wilson", "mike.wilson@email.com", "$12,850", "$8,500", "suspended", "pending", "2024-03-10"),
    UserRow(4, "Sarah Jones", "sarah.jones@email.com", "$67,200", "$45,000", "active", "verified", "2024-01-05"),
    UserRow(5, "Alex Brown", "alex.brown@email.com", "$5,200", "$2,500", "active", "rejected", "2024-04-01")
  ]

  predicate Matches(u: UserRow, term: string) {
    AdminReview.NameOrEmailMatches(u.name, u.email, term)
  }

  /** `filteredUsers`: the users whose name or email contains the search,
      ignoring case, in their original order. */
  function FilteredUsers(rows: seq<UserRow>, term: string): (r: seq<UserRow>)
    ensures forall i :: 0 <= i < |r| ==> r[i] in rows && Matches(r[i], term)
    ensures forall i :: 0 <= i < |rows| && Matches(rows[i], term) ==> rows[i] in r
    ensures Lists.IsSubsequence(r, rows)
  {
    Lists.Filter(rows, (u: UserRow) => Matches(u, term))
  }

  /** An empty search shows every user. */
  lemma EmptySearchKeepsAll(rows: seq<UserRow>)
    ensures FilteredUsers(rows, "") == rows
  {
    forall i | 0 <= i < |rows| ensures Matches(rows[i], "") {
      AdminReview.EmptyTermMatches(rows[i].name, rows[i].email);
    }
    Lists.FilterAll(rows, (u: UserRow) => Matches(u, ""));
  }

  /** The account action offered for a user, in the menu and in the dialog:
      suspend an active account, activate any other. */
  function AccountAction(status: string): (action: string)
    ensures action == "suspend" <==> status == "active"
    ensures action == "activate" <==> status != "active"
  {
    if status == "active" then "suspend" else "activate"
  }

  /** The actions a user's row menu offers besides "View Details"; the dialog
      offers the same two. */
  function MenuActions(u: UserRow): (actions: seq<string>)
    ensures |actions| == 2 && actions[0] == "email"
    ensures "suspend" in actions <==> u.status == "active"
    ensures "activate" in actions <==> u.status != "active"
  {
    ["email", AccountAction(u.status)]
  }

  /** Of the page's users only Mike Wilson, the suspended one, is offered
      "activate". */
  lemma ShownActions()
    ensures forall i :: 0 <= i < |Users| ==> (AccountAction(Users[i].status) == "activate" <==> Users[i].id == 3)
  {
  }

  /** `handleAction`: the notice naming the action and the user's id. */
  function ActionToast(action: string, userId: nat): (t: Toast)
    ensures t.Success?
  {
    Success(action + " action", "Successfully performed " + action + " on user ID: " + NatToString(userId))
  }

  /** The notice tells the action and the user apart: two notices are the
      same only for the same action on the same user. */
  lemma ActionToastIdentifies(a: string, i: nat, b: string, j: nat)
    requires ActionToast(a, i) == ActionToast(b, j)
    ensures a == b && i == j
  {
    var ta := a + " action";
    var tb := b + " action";
    assert ta[..|a|] == a && tb[..|b|] == b;
    var prefix := "Successfully performed " + a + " on user ID: ";
    assert prefix == "Successfully performed " + b + " on user ID: ";
    var da := prefix + NatToString(i);
    assert da[|prefix|..] == NatToString(i);
    assert NatToString(i) == NatToString(j);
  }

  class AdminUsersPage {
    var searchTerm: string
    var selected: Option<UserRow>

    constructor ()
      ensures searchTerm == "" && selected.None?
    {
      searchTerm := "";
      selected := None;
    }

    /** The table's rows; the title counts them. */
    function Shown(): seq<UserRow>
      reads this
    {
      FilteredUsers(Users, searchTerm)
    }

    method Search(term: string)
      modifies this
      ensures searchTerm == term && selected == old(selected)
    {
      searchTerm := term;
    }

    /** "View Details" opens the dialog on a user; closing it passes `None`. */
    method ViewDetails(u: Option<UserRow>)
      modifies this
      ensures selected == u && searchTerm == old(searchTerm)
    {
      selected := u;
    }

    /** `handleAction` changes nothing on the page: the user's status stays as
        it was and the dialog stays open. */
    method HandleAction(action: string, userId: nat) returns (t: Toast)
      ensures t == ActionToast(action, userId)
    {
      t := ActionToast(action, userId);
    }
  }
}
