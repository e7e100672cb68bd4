/**
 * The protected-route guard: from the auth context's `user`, `appUser` and
 * `loading`, and the page's `requireAdmin` flag, it decides which redirect
 * its effect issues and what it renders. It keeps no state of its own.
 */
module RouteGuard {
  import opened Wrappers
  import opened Types
  import opened AuthContext

  const LoginPath: Path := "/login"
  const DashboardPath: Path := "/dashboard"

  /** What the guard renders: a spinner, nothing, or its children unchanged. */
  datatype View<C> = Spinner | Nothing | Children(children: C)

  /** The redirect the effect pushes (at most one) and the rendered view. */
  datatype Decision<C> = Decision(redirect: Option<Path>, view: View<C>)

  /** `appUser?.role === 'admin'`; a missing profile is not an admin. */
  predicate IsAdmin(appUser: Option<User>) {
    appUser.Some? && appUser.value.role == Admin
  }

  /** Who may see the guarded page once loading is over. */
  predicate Permitted(st: AuthState, requireAdmin: bool) {
    st.user.Some? && (!requireAdmin || IsAdmin(st.appUser))
  }

  /** The effect: the route it pushes, if any. */
  function EffectRedirect(st: AuthState, requireAdmin: bool): (r: Option<Path>)
    ensures r.None? <==> st.loading || Permitted(st, requireAdmin)
    ensures r.Some? ==> r.value == (if st.user.None? then LoginPath else DashboardPath)
  {
    if !st.loading then
      if st.user.None? then Some(LoginPath)
      else if requireAdmin && !IsAdmin(st.appUser) then Some(DashboardPath)
      else None
    else None
  }

  /** The render: spinner while loading, nothing when refused, else the children. */
  function RenderView<C>(st: AuthState, requireAdmin: bool, children: C): (v: View<C>)
    ensures v == Spinner <==> st.loading
    ensures v.Children? <==> !st.loading && Permitted(st, requireAdmin)
    ensures v.Children? ==> v.children == children
  {
    if st.loading then Spinner
    else if st.user.None? || (requireAdmin && !IsAdmin(st.appUser)) then Nothing
    else Children(children)
  }

  /**
   * The guard as one decision. While loading: spinner and no redirect. With
   * no user: `/login` and nothing rendered. Signed in but not an admin on an
   * admin page (a missing profile included): `/dashboard` and nothing
   * rendered. The children are rendered, unchanged, exactly when loading is
   * over and the visitor is permitted; and once loading is over, the effect
   * redirects exactly when the children are not rendered.
   */
  function ProtectedRoute<C>(st: AuthState, requireAdmin: bool, children: C): (d: Decision<C>)
    ensures st.loading ==> d == Decision(None, Spinner)
    ensures !st.loading && st.user.None? ==> d == Decision(Some(LoginPath), Nothing)
    ensures !st.loading && st.user.Some? && requireAdmin && !IsAdmin(st.appUser) ==>
              d == Decision(Some(DashboardPath), Nothing)
    ensures d.view == Children(children) <==> !st.loading && Permitted(st, requireAdmin)
    ensures d.view.Children? ==> d.view.children == children
    ensures !st.loading ==> (d.view.Children? <==> d.redirect.None?)
    ensures d.redirect.Some? ==> d.redirect.value == LoginPath || d.redirect.value == DashboardPath
  {
    Decision(EffectRedirect(st, requireAdmin), RenderView(st, requireAdmin, children))
  }

  /** With the default `requireAdmin = false`, every signed-in user sees the children, whatever the profile. */
  lemma DefaultAdmitsEverySignedInUser<C>(st: AuthState, children: C)
    requires !st.loading && st.user.Some?
    ensures ProtectedRoute(st, false, children) == Decision(None, Children(children))
  {
  }

  /** The admin dashboard: its content under a guard that requires an admin. */
  function AdminPage<C>(st: AuthState, content: C): (d: Decision<C>)
    ensures d.view == Children(content) <==> !st.loading && st.user.Some? && IsAdmin(st.appUser)
    ensures !st.loading && st.user.Some? && !IsAdmin(st.appUser) ==> d.redirect == Some(DashboardPath)
  {
    ProtectedRoute(st, true, content)
  }

  /**
   * Whatever happened before, once the auth service reports a session-less
   * auth change (as after a sign-out), the guard sends the visitor to
   * `/login` and renders nothing, on every page.
   */
  lemma SignedOutVisitorGoesToLogin<C>(steps: seq<Step>, profile: Option<User>, requireAdmin: bool, children: C)
    ensures var st := Run(Initial, steps + [AuthChange(None, profile)]);
      ProtectedRoute(st, requireAdmin, children) == Decision(Some(LoginPath), Nothing)
  {
    SignOutEventClears(Initial, steps, profile);
  }

  /** The spinner shows only before the auth context's first handler has run. */
  lemma SpinnerOnlyBeforeFirstStep<C>(steps: seq<Step>, requireAdmin: bool, children: C)
    ensures ProtectedRoute(Run(Initial, steps), requireAdmin, children).view == Spinner <==> steps == []
  {
  }
}
