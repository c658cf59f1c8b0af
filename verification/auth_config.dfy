/** The route gate of auth.config.ts: the `authorized` callback the request
    middleware consults before any page renders, and the sign-in page it sends
    anonymous visitors to. */
module AuthConfig {
  import opened Outcomes

  /** `pages.signIn`: where a refused request is sent. */
  const SignInPage: string := "/login"

  /** The protected area; also where logged-in users are redirected. */
  const DashboardPath: string := "/dashboard"

  /** The user carried by a session. */
  datatype SessionUser = SessionUser(name: string, email: string)

  /** The `auth` object handed to the callback; its `user` may be absent. */
  datatype Session = Session(user: Option<SessionUser>)

  /** What the callback answers: `true`, `false` (the framework then sends the
      visitor to the sign-in page) or a `Response.redirect` to a location. */
  datatype Decision = Allow | SendToSignIn | Redirect(location: string)

  /** `s.startsWith(prefix)`. */
  predicate StartsWith(s: string, prefix: string) {
    |prefix| <= |s| && s[..|prefix|] == prefix
  }

  /** `!!auth?.user`. */
  predicate IsLoggedIn(auth: Option<Session>) {
    auth.Some? && auth.value.user.Some?
  }

  /** `nextUrl.pathname.startsWith('/dashboard')`. */
  predicate IsOnDashboard(pathname: string) {
    StartsWith(pathname, DashboardPath)
  }

  /** `callbacks.authorized({ auth, request: { nextUrl } })`. */
  function Authorized(auth: Option<Session>, pathname: string): (d: Decision)
    ensures IsOnDashboard(pathname) ==> (d == Allow <==> IsLoggedIn(auth))
    ensures IsOnDashboard(pathname) && !IsLoggedIn(auth) ==> d == SendToSignIn
    ensures !IsOnDashboard(pathname) && IsLoggedIn(auth) ==> d == Redirect(DashboardPath)
    ensures !IsOnDashboard(pathname) && !IsLoggedIn(auth) ==> d == Allow
  {
    var isLoggedIn := IsLoggedIn(auth);
    var isOnDashboard := IsOnDashboard(pathname);
    if isOnDashboard then
      if isLoggedIn then Allow else SendToSignIn
    else if isLoggedIn then
      Redirect(DashboardPath)
    else
      Allow
  }

  /** The path the visitor ends up on once the decision is carried out. */
  function Destination(d: Decision, pathname: string): string {
    match d
    case Allow => pathname
    case SendToSignIn => SignInPage
    case Redirect(location) => location
  }

  /** After the gate has acted, a visitor is inside the dashboard exactly when
      logged in: anonymous visitors never see it, logged-in users never stay
      outside it (not even on the sign-in page). */
  lemma LandsOnDashboardIffLoggedIn(auth: Option<Session>, pathname: string)
    ensures IsOnDashboard(Destination(Authorized(auth, pathname), pathname)) <==> IsLoggedIn(auth)
  {
    assert !IsOnDashboard(SignInPage);
    assert IsOnDashboard(DashboardPath);
  }

  /** Following the decision leads to a page the gate lets through, so the
      gate never sends a visitor round in a redirect loop. */
  lemma DestinationIsAllowed(auth: Option<Session>, pathname: string)
    ensures Authorized(auth, Destination(Authorized(auth, pathname), pathname)) == Allow
  {
    assert !IsOnDashboard(SignInPage);
    assert IsOnDashboard(DashboardPath);
  }

  /** The decision depends only on whether a session user exists and on
      whether the path starts with `/dashboard`. */
  lemma DecisionDependsOnlyOnLoginAndPrefix(
    auth1: Option<Session>, path1: string, auth2: Option<Session>, path2: string)
    requires IsLoggedIn(auth1) == IsLoggedIn(auth2)
    requires IsOnDashboard(path1) == IsOnDashboard(path2)
    ensures Authorized(auth1, path1) == Authorized(auth2, path2)
  {
  }

  /** Protection is a bare prefix test: any path that begins with `/dashboard`,
      such as `/dashboards`, is guarded too. */
  lemma PrefixedPathsAreProtected(auth: Option<Session>, suffix: string)
    requires !IsLoggedIn(auth)
    ensures Authorized(auth, DashboardPath + suffix) == SendToSignIn
  {
    assert (DashboardPath + suffix)[..|DashboardPath|] == DashboardPath;
  }
}
