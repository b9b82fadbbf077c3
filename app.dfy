/** The application shell: the route table, the guard in front of the
    signed-in routes, the wait for the session and role, and the auth effect
    that keeps both up to date. */
module App {
  import opened Wrappers
  import opened Notices

  /** What a route renders: a page, a redirect, or the loading spinner. */
  datatype View = Page(name: string) | Navigate(to: string) | Spinner

  /** Who may see a guarded page: a session, and, when roles are listed, a
      non-empty role among them. */
  predicate Admitted(session: bool, role: Option<string>, allowedRoles: seq<string>) {
    session && (allowedRoles == [] || (role.Some? && role.value != "" && role.value in allowedRoles))
  }

  /** `ProtectedRoute`: no session goes to `/login`; a non-empty role list
      turns away a missing or empty role, or one not listed, to `/dashboard`;
      otherwise the children render. */
  function Guard(session: bool, role: Option<string>, allowedRoles: seq<string>, child: View): (v: View)
    ensures !session ==> v == Navigate("/login")
    ensures session && !Admitted(session, role, allowedRoles) ==> v == Navigate("/dashboard")
    ensures Admitted(session, role, allowedRoles) ==> v == child
  {
    if !session then Navigate("/login")
    else if |allowedRoles| > 0 && (role.None? || role.value == "" || role.value !in allowedRoles) then Navigate("/dashboard")
    else child
  }

  /** An empty role list admits every session, whatever its role. */
  lemma EmptyRolesAdmitAnySession(role: Option<string>, child: View)
    ensures Guard(true, role, [], child) == child
  {
  }

  const UserRoutes: seq<string> :=
    ["/dashboard", "/dashboard/wallet", "/dashboard/investments", "/dashboard/withdraw",
     "/dashboard/referrals", "/dashboard/support", "/dashboard/settings"]
  const AdminRoutes: seq<string> :=
    ["/admin", "/admin/users", "/admin/investments", "/admin/withdrawals", "/admin/crypto",
     "/admin/kyc", "/admin/reports", "/admin/settings"]
  const UserRoles: seq<string> := ["user", "admin"]
  const AdminRoles: seq<string> := ["admin"]

  /** `loading || (session && userRole === null)`: the spinner while the
      session or its role is still unknown; an empty role is not null. */
  predicate Waiting(loading: bool, session: bool, role: Option<string>) {
    loading || (session && role.None?)
  }

  /** What the application shows at `path`. */
  function Render(loading: bool, session: bool, role: Option<string>, path: string): (v: View)
    ensures Waiting(loading, session, role) <==> v == Spinner
  {
    if Waiting(loading, session, role) then Spinner
    else if path == "/" then Page("/")
    else if path == "/login" || path == "/signup" then
      if session then Navigate("/dashboard") else Page(path)
    else if path in UserRoutes then Guard(session, role, UserRoles, Page(path))
    else if path in AdminRoutes then Guard(session, role, AdminRoles, Page(path))
    else Page("*")
  }

  /** Once loaded, an admin page is shown exactly to a session whose role is
      `admin`, and a dashboard page exactly to one whose role is `user` or
      `admin`. */
  lemma RoutesAdmitRoles(loading: bool, session: bool, role: Option<string>, path: string)
    requires !Waiting(loading, session, role)
    ensures path in AdminRoutes ==>
      (Render(loading, session, role, path) == Page(path) <==> session && role == Some("admin"))
    ensures path in UserRoutes ==>
      (Render(loading, session, role, path) == Page(path) <==> session && (role == Some("user") || role == Some("admin")))
  {
  }

  /** Without a session every dashboard and admin page sends the visitor to
      `/login`; with one, `/login` and `/signup` send it to `/dashboard`. */
  lemma SessionRedirects(role: Option<string>, path: string)
    ensures path in UserRoutes || path in AdminRoutes ==> Render(false, false, role, path) == Navigate("/login")
    ensures role.Some? && (path == "/login" || path == "/signup") ==>
      Render(false, true, role, path) == Navigate("/dashboard")
  {
  }

  /** A profile row as the role query returns it. */
  datatype ProfileRow = ProfileRow(role: Option<string>)

  /** The session and the role the shell keeps. */
  class AppState {
    var session: Option<string>
    var userRole: Option<string>
    var loading: bool

    constructor ()
      ensures session.None? && userRole.None? && loading
    {
      session := None;
      userRole := None;
      loading := true;
    }

    function View(path: string): View
      reads this
    {
      Render(loading, session.Some?, userRole, path)
    }

    /** The role query's reply applied to the state: an error clears the role,
        a row sets it, no row leaves it. */
    method ApplyRole(reply: Reply<Option<ProfileRow>>)
      modifies this
      ensures reply.Failed? ==> userRole.None?
      ensures reply.Data? && reply.data.Some? ==> userRole == reply.data.value.role
      ensures reply.Data? && reply.data.None? ==> userRole == old(userRole)
      ensures session == old(session) && loading == old(loading)
    {
      if reply.Failed? {
        userRole := None;
      } else if reply.data.Some? {
        userRole := reply.data.value.role;
      }
    }

    /** `getSessionAndProfile`, given the stored session (a user id) and the
        reply of the role query, which is only made when there is a session;
        loading ends either way. */
    method SessionLoaded(s: Option<string>, reply: Reply<Option<ProfileRow>>)
      modifies this
      ensures session == s && !loading
      ensures s.None? ==> userRole.None?
      ensures s.Some? && reply.Failed? ==> userRole.None?
      ensures s.Some? && reply.Data? && reply.data.Some? ==> userRole == reply.data.value.role
      ensures s.Some? && reply.Data? && reply.data.None? ==> userRole == old(userRole)
    {
      session := s;
      if s.Some? {
        ApplyRole(reply);
      } else {
        userRole := None;
      }
      loading := false;
    }

    /** The `onAuthStateChange` listener, with the role query's reply taken
        to arrive before anything else happens. */
    method AuthChanged(s: Option<string>, reply: Reply<Option<ProfileRow>>)
      modifies this
      ensures session == s && loading == old(loading)
      ensures s.None? ==> userRole.None?
      ensures s.Some? && reply.Failed? ==> userRole.None?
      ensures s.Some? && reply.Data? && reply.data.Some? ==> userRole == reply.data.value.role
      ensures s.Some? && reply.Data? && reply.data.None? ==> userRole == old(userRole)
    {
      session := s;
      if s.Some? {
        ApplyRole(reply);
      } else {
        userRole := None;
      }
    }
  }

  /** A failed role query for a signed-in user, or a profile without a role,
      leaves the shell on the spinner, on every path, until an auth change
      brings a role. */
  lemma RoleErrorKeepsSpinner(path: string)
    ensures Render(false, true, None, path) == Spinner
  {
  }
}
