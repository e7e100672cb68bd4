/**
 * The authentication context: a process-wide mirror of the auth service's
 * session (`session`, `user`), of the signed-in user's profile row
 * (`appUser`) and of a `loading` flag. The service itself is not modelled:
 * each handler receives what its calls returned (the session, and the
 * profile row the `users` lookup found, if any) and runs as one atomic step.
 */
module AuthContext {
  import opened Wrappers
  import opened Types

  /** The identity the auth service attaches to a session. */
  datatype AuthUser = AuthUser(id: string, email: string)

  /** A session of the auth service; it always carries its user. */
  datatype Session = Session(accessToken: string, user: AuthUser)

  /** The four state fields of the provider. */
  datatype AuthState = AuthState(
    session: Option<Session>,
    user: Option<AuthUser>,
    appUser: Option<User>,
    loading: bool)

  /** The state before any handler has run: nothing known, still loading. */
  const Initial: AuthState := AuthState(None, None, None, true)

  /** `session?.user ?? null` */
  function UserOf(session: Option<Session>): (u: Option<AuthUser>)
    ensures u.Some? <==> session.Some?
    ensures session.Some? ==> u.value == session.value.user
  {
    match session
    case None => None
    case Some(s) => Some(s.user)
  }

  /** The user field is exactly the user of the session field. */
  predicate Mirrors(st: AuthState) {
    st.user == UserOf(st.session)
  }

  /**
   * `getInitialSession`: store the session and its user; when there is a
   * session and the profile lookup returned a row, store that row; in every
   * other case the profile field keeps what it held. Loading ends.
   */
  function AfterInitialSession(st: AuthState, fetched: Option<Session>, profile: Option<User>): (r: AuthState)
    ensures r.session == fetched && Mirrors(r)
    ensures !r.loading
    ensures fetched.Some? && profile.Some? ==> r.appUser == profile
    ensures fetched.None? || profile.None? ==> r.appUser == st.appUser
  {
    var mirrored := st.(session := fetched, user := UserOf(fetched));
    var profiled := if fetched.Some? && profile.Some? then mirrored.(appUser := profile) else mirrored;
    profiled.(loading := false)
  }

  /**
   * The `onAuthStateChange` handler: as `getInitialSession`, except that an
   * event without a session clears the profile field.
   */
  function AfterAuthChange(st: AuthState, session: Option<Session>, profile: Option<User>): (r: AuthState)
    ensures r.session == session && Mirrors(r)
    ensures !r.loading
    ensures session.None? ==> r.appUser.None?
    ensures session.Some? && profile.Some? ==> r.appUser == profile
    ensures session.Some? && profile.None? ==> r.appUser == st.appUser
  {
    var mirrored := st.(session := session, user := UserOf(session));
    var profiled :=
      if session.Some? then (if profile.Some? then mirrored.(appUser := profile) else mirrored)
      else mirrored.(appUser := None);
    profiled.(loading := false)
  }

  /** One handler run, with what the service returned to it. */
  datatype Step =
    | InitialSession(session: Option<Session>, profile: Option<User>)
    | AuthChange(session: Option<Session>, profile: Option<User>)

  function Apply(st: AuthState, step: Step): AuthState {
    match step
    case InitialSession(s, p) => AfterInitialSession(st, s, p)
    case AuthChange(s, p) => AfterAuthChange(st, s, p)
  }

  /**
   * The state after the handler runs `steps`, in order. After any step the
   * user field mirrors the session field, and loading is over for good.
   */
  function Run(st: AuthState, steps: seq<Step>): (r: AuthState)
    ensures |steps| > 0 || Mirrors(st) ==> Mirrors(r)
    ensures |steps| > 0 || !st.loading ==> !r.loading
    ensures steps == [] ==> r == st
    decreases |steps|
  {
    if steps == [] then st else Run(Apply(st, steps[0]), steps[1..])
  }

  /** Running one more step is applying it to the state reached so far. */
  lemma {:induction false} RunSnoc(st: AuthState, steps: seq<Step>, last: Step)
    ensures Run(st, steps + [last]) == Apply(Run(st, steps), last)
    decreases |steps|
  {
    if steps == [] {
      assert steps + [last] == [last];
      assert Run(Apply(st, last), []) == Apply(st, last);
    } else {
      assert (steps + [last])[1..] == steps[1..] + [last];
      RunSnoc(Apply(st, steps[0]), steps[1..], last);
    }
  }

  /**
   * Whatever the steps before it, an auth-change event without a session
   * (what the service emits after a sign-out) leaves no session, no user and
   * no cached profile, and the state is not loading.
   */
  lemma SignOutEventClears(st: AuthState, steps: seq<Step>, profile: Option<User>)
    ensures var r := Run(st, steps + [AuthChange(None, profile)]);
      r.session.None? && r.user.None? && r.appUser.None? && !r.loading
  {
    RunSnoc(st, steps, AuthChange(None, profile));
  }

  /**
   * The profile field is never invented: after any run it is either what it
   * was before the run or the row some step with a session received.
   */
  lemma {:induction false} ProfileComesFromALookup(st: AuthState, steps: seq<Step>)
    ensures var r := Run(st, steps);
      r.appUser.None? || r.appUser == st.appUser ||
      exists i :: 0 <= i < |steps| && steps[i].session.Some? && steps[i].profile == r.appUser
    decreases |steps|
  {
    if steps != [] {
      var next := Apply(st, steps[0]);
      ProfileComesFromALookup(next, steps[1..]);
      var r := Run(next, steps[1..]);
      assert r == Run(st, steps);
      if r.appUser.Some? && r.appUser != st.appUser {
        if r.appUser == next.appUser {
          assert steps[0].session.Some? && steps[0].profile == r.appUser;
        } else {
          var i :| 0 <= i < |steps[1..]| && steps[1..][i].session.Some? && steps[1..][i].profile == r.appUser;
          assert steps[i + 1] == steps[1..][i];
        }
      }
    }
  }

  /**
   * A profile row outlives its session: when a new session's lookup finds no
   * row, the previous user's row stays cached beside the new user.
   */
  lemma ProfileSurvivesSessionChange(a: Session, b: Session, rowOfA: User)
    ensures var r := Run(Initial, [AuthChange(Some(a), Some(rowOfA)), AuthChange(Some(b), None)]);
      r.user == Some(b.user) && r.appUser == Some(rowOfA)
  {
  }

  /** Message of the error `useAuth` throws outside a provider. */
  const OutsideProviderMessage: string := "useAuth must be used within an AuthProvider"

  /** `useAuth`: the provider's value, or the error thrown when there is none. */
  function UseAuth(context: Option<AuthState>): (r: Result<AuthState, string>)
    ensures r.Failure? <==> context.None?
    ensures r.Failure? ==> r.error == OutsideProviderMessage
    ensures r.Success? ==> r.value == context.value
  {
    match context
    case None => Failure(OutsideProviderMessage)
    case Some(st) => Success(st)
  }

  /** The provider component, with its four state fields. */
  class AuthProvider {
    var session: Option<Session>
    var user: Option<AuthUser>
    var appUser: Option<User>
    var loading: bool

    /** The value the provider hands to its consumers. */
    function State(): AuthState
      reads this
    {
      AuthState(session, user, appUser, loading)
    }

    constructor ()
      ensures State() == Initial
    {
      session, user, appUser, loading := None, None, None, true;
    }

    /** The mount effect's first handler, given what the service returned. */
    method GetInitialSession(fetched: Option<Session>, profile: Option<User>)
      modifies this
      ensures State() == AfterInitialSession(old(State()), fetched, profile)
      ensures Mirrors(State()) && !loading
    {
      session := fetched;
      user := UserOf(fetched);
      if fetched.Some? {
        if profile.Some? {
          appUser := profile;
        }
      }
      loading := false;
    }

    /** The subscribed auth-change handler, given the event's session and the lookup's row. */
    method OnAuthStateChange(changed: Option<Session>, profile: Option<User>)
      modifies this
      ensures State() == AfterAuthChange(old(State()), changed, profile)
      ensures Mirrors(State()) && !loading
    {
      session := changed;
      user := UserOf(changed);
      if changed.Some? {
        if profile.Some? {
          appUser := profile;
        }
      } else {
        appUser := None;
      }
      loading := false;
    }

    /**
     * `signOut` only asks the service to end the session; no field changes
     * until the service's resulting auth-change event arrives.
     */
    method SignOut()
      ensures State() == old(State())
    {
    }
  }
}
