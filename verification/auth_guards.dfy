/** The session guards of the API routes and the admin check of the server
    actions. The session is an input: what the session lookup returned. */
module AuthGuards {
  import opened Common
  import opened Http

  /** `id` is the empty string when the session user has none. */
  datatype SessionUser = SessionUser(id: string, role: Option<string>)

  datatype Session = Session(user: Option<SessionUser>)

  predicate SignedIn(session: Option<Session>) {
    session.Some? && session.value.user.Some?
  }

  const Unauthenticated: Response := Fail(401, "Authentication required")

  const Forbidden: Response := Fail(403, "Insufficient permissions")

  /** `requireAuth`: null (None) lets the request through. */
  function RequireAuth(session: Option<Session>): (r: Option<Response>)
    ensures r.None? <==> SignedIn(session)
    ensures r.Some? ==> r.value == Unauthenticated
  {
    if !SignedIn(session) then Some(Unauthenticated) else None
  }

  /** `requireRole`: the authentication answer first; then a missing or empty
      role, or one different from `role`, is refused. */
  function RequireRole(session: Option<Session>, role: string): (r: Option<Response>)
    ensures !SignedIn(session) ==> r == Some(Unauthenticated)
    ensures SignedIn(session) ==>
      (r.None? <==> session.value.user.value.role == Some(role) && role != "")
    ensures SignedIn(session) && r.Some? ==> r.value == Forbidden
  {
    var auth := RequireAuth(session);
    if auth.Some? then auth
    else
      var userRole := session.value.user.value.role;
      if !Present(userRole) || userRole.value != role then Some(Forbidden) else None
  }

  /** Since an empty role is falsy, no session passes `requireRole` for "". */
  lemma RequireEmptyRoleRefusesAll(session: Option<Session>)
    ensures RequireRole(session, "").Some?
  {
  }

  /** Passing the role guard implies passing the authentication guard. */
  lemma RoleImpliesAuth(session: Option<Session>, role: string)
    ensures RequireRole(session, role).None? ==> RequireAuth(session).None?
  {
  }

  /** `checkAdmin` in the admin actions: throws `Unauthorized` unless the
      session user's role is exactly "ADMIN". */
  predicate IsAdmin(session: Option<Session>) {
    SignedIn(session) && session.value.user.value.role == Some("ADMIN")
  }

  /** The admin check agrees with the route guard for the "ADMIN" role. */
  lemma AdminMatchesRequireRole(session: Option<Session>)
    ensures IsAdmin(session) <==> RequireRole(session, "ADMIN").None?
  {
  }
}
