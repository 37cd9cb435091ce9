/** The web application's server-side session helpers. The session lookup itself is the caller's
    input: a session is present or not, and a present one may or may not carry a user. */
module WebAuth {
  import opened Wrappers

  /** The user object of a session; `role` is set by the application's session callback and may
      be absent. */
  datatype SessionUser = SessionUser(id: Option<string>, email: Option<string>, role: Option<string>)

  datatype Session = Session(user: Option<SessionUser>)

  const Unauthorized: string := "Unauthorized"
  const AdminRequired: string := "Forbidden: Admin access required"

  /** `getCurrentUser`: `session?.user`. */
  function GetCurrentUser(session: Option<Session>): (r: Option<SessionUser>)
    ensures r.Some? <==> session.Some? && session.value.user.Some?
    ensures r.Some? ==> r == session.value.user
  {
    if session.None? then None else session.value.user
  }

  /** `requireAuth`: the session's user, or the `Unauthorized` error when there is none. */
  function RequireAuth(session: Option<Session>): (r: Result<SessionUser, string>)
    ensures r.Success? <==> GetCurrentUser(session).Some?
    ensures r.Success? ==> r.value == GetCurrentUser(session).value
    ensures r.Failure? ==> r.error == Unauthorized
  {
    match GetCurrentUser(session)
    case None => Failure(Unauthorized)
    case Some(user) => Success(user)
  }

  /** `requireAdmin`: the session's user if it is an administrator; without a user the error is
      `Unauthorized`, and with a user of any other role (or none) the admin error. */
  function RequireAdmin(session: Option<Session>): (r: Result<SessionUser, string>)
    ensures r.Success? <==> GetCurrentUser(session).Some? && GetCurrentUser(session).value.role == Some("admin")
    ensures r.Success? ==> r.value == GetCurrentUser(session).value
    ensures GetCurrentUser(session).None? ==> r == Failure(Unauthorized)
    ensures GetCurrentUser(session).Some? && GetCurrentUser(session).value.role != Some("admin") ==> r == Failure(AdminRequired)
  {
    var user :- RequireAuth(session);
    if user.role != Some("admin") then Failure(AdminRequired) else Success(user)
  }

  /** Every caller `requireAdmin` lets through, `requireAuth` lets through with the same user,
      and it rejects exactly the callers without the admin role. */
  lemma AdminImpliesAuth(session: Option<Session>)
    ensures RequireAdmin(session).Success? ==> RequireAuth(session) == RequireAdmin(session)
    ensures RequireAuth(session).Success? && RequireAdmin(session).Failure? <==>
      RequireAuth(session).Success? && RequireAuth(session).value.role != Some("admin")
  {
  }
}
