/** frontend/src/components/ProtectedRoute.jsx: what a guarded page shows,
    decided from the client's authentication state. */
module ProtectedRoute {
  import opened Common

  /** The spinner, a redirect to /login, a redirect to /unauthorized, or the
      guarded page itself. */
  datatype View = Spinner | RedirectLogin | RedirectUnauthorized | Children

  /** `user?.role`: undefined when there is no user or it has no role. */
  function RoleOf(user: Option<Json>): Option<Json>
  {
    match user
    case None => None
    case Some(u) => Member(u, "role")
  }

  /** `allowedRoles.includes(role)`: only a string can equal a listed
      role. */
  predicate Includes(allowedRoles: seq<string>, role: Option<Json>)
  {
    match role
    case Some(JStr(s)) => s in allowedRoles
    case _ => false
  }

  /** The guard's decision. `allowedRoles` defaults to the empty list,
      which lets every authenticated user through. */
  function Guard(loading: bool, isAuthenticated: bool, user: Option<Json>, allowedRoles: seq<string>): (v: View)
    ensures v == Spinner <==> loading
    ensures v == RedirectLogin <==> !loading && !isAuthenticated
    ensures v == RedirectUnauthorized <==>
      !loading && isAuthenticated && |allowedRoles| > 0 && !Includes(allowedRoles, RoleOf(user))
    ensures v == Children <==>
      !loading && isAuthenticated && (allowedRoles == [] || Includes(allowedRoles, RoleOf(user)))
  {
    if loading then Spinner
    else if !isAuthenticated then RedirectLogin
    else if |allowedRoles| > 0 && !Includes(allowedRoles, RoleOf(user)) then RedirectUnauthorized
    else Children
  }

  /** An authenticated state without a user (the one a stored token or a
      sign-up reply leads to) passes the default guard and is turned away
      by every guard that lists roles. */
  lemma NoUserOnlyPassesDefault(allowedRoles: seq<string>)
    ensures Guard(false, true, None, []) == Children
    ensures allowedRoles != [] ==> Guard(false, true, None, allowedRoles) == RedirectUnauthorized
  {
  }

  /** The organizer pages admit exactly the users whose role is the string
      "organizer". */
  lemma OrganizerPages(user: Json)
    ensures Guard(false, true, Some(user), ["organizer"]) == Children <==> Member(user, "role") == Some(JStr("organizer"))
  {
    match Member(user, "role")
    case Some(JStr(s)) =>
      assert s in ["organizer"] <==> s == "organizer";
    case _ =>
  }
}
