/**
 * The OAuth callback page: a one-shot effect that reads the session the
 * callback has just established, looks up the user's role and navigates to
 * the matching dashboard, or to the login page with an error flag when the
 * session cannot be read. The two service calls are given as their outcomes.
 */
module AuthCallback {
  import opened Wrappers
  import opened Types
  import opened AuthContext

  const LoginErrorPath: Path := "/login?error=Authentication%20failed"
  const StudentDashboardPath: Path := "/dashboard/student"
  const AdminDashboardPath: Path := "/dashboard/admin"

  /** What the session fetch returned: an error, or data with a session or none. */
  datatype SessionFetch = FetchError | Fetched(session: Option<Session>)

  /** What the role lookup returned: an error, or a row's role (none when the row data is empty). */
  datatype RoleLookup = LookupError | LookedUp(role: Option<Role>)

  /** How the `try` block ends: by throwing, or by returning after it navigated. */
  datatype TryOutcome = Threw | Returned(pushed: seq<Path>)

  /** The `try` block of `handleAuthCallback`. */
  function TryBlock(fetch: SessionFetch, lookup: RoleLookup): (t: TryOutcome)
    ensures t.Returned? ==> |t.pushed| == 1
  {
    if fetch.FetchError? then Threw
    else if fetch.session.None? then Threw
    else if lookup.LookupError? then Returned([StudentDashboardPath])
    else if lookup.role == Some(Admin) then Returned([AdminDashboardPath])
    else Returned([StudentDashboardPath])
  }

  /** True when the session fetch succeeded and found a session. */
  predicate SignedIn(fetch: SessionFetch) {
    fetch.Fetched? && fetch.session.Some?
  }

  /**
   * The routes the callback pushes. Always exactly one; the login-error route
   * exactly when no session could be read; the admin dashboard exactly when
   * both lookups succeeded and the role is `admin`; otherwise (a failed role
   * lookup, a non-admin role, empty row data) the student dashboard.
   */
  function HandleAuthCallback(fetch: SessionFetch, lookup: RoleLookup): (pushed: seq<Path>)
    ensures |pushed| == 1
    ensures pushed[0] == LoginErrorPath <==> !SignedIn(fetch)
    ensures pushed[0] == AdminDashboardPath <==> SignedIn(fetch) && lookup == LookedUp(Some(Admin))
    ensures pushed[0] == StudentDashboardPath <==> SignedIn(fetch) && lookup != LookedUp(Some(Admin))
    ensures SignedIn(fetch) && lookup.LookupError? ==> pushed == [StudentDashboardPath]
  {
    match TryBlock(fetch, lookup)
    case Threw => [LoginErrorPath]
    case Returned(routes) => routes
  }
}
