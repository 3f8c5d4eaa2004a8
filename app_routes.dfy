/** The application's route table, and what a visitor ends up seeing once the guards'
    redirects and the pending page's navigation have been followed. */
module AppRoutes {

  import opened Common
  import opened Session
  import ProtectedRoute
  import PublicRoute
  import AdminRoute
  import PendingApproval

  datatype Page =
    | IndexPage | LoginPage | RegisterPage | PendingApprovalPage | DashboardPage
    | AdminLoginPage | AdminDashboardPage | NotFoundPage

  datatype Guard = Public | Protected | Admin | Unguarded

  const INDEX := "/"
  const REGISTRO := "/registro"

  /** The `<Route path=...>` entries, in order, with `*` last. */
  function Match(path: string): Page {
    if path == INDEX then IndexPage
    else if path == LOGIN then LoginPage
    else if path == REGISTRO then RegisterPage
    else if path == PENDING_APPROVAL then PendingApprovalPage
    else if path == DASHBOARD then DashboardPage
    else if path == ADMIN_LOGIN then AdminLoginPage
    else if path == ADMIN_DASHBOARD then AdminDashboardPage
    else NotFoundPage
  }

  /** The guard each route element is wrapped in. */
  function GuardOf(p: Page): (g: Guard)
    ensures g == Public <==> p in {IndexPage, LoginPage, RegisterPage}
    ensures g == Protected <==> p == DashboardPage
    ensures g == Admin <==> p == AdminDashboardPage
  {
    match p
    case IndexPage => Public
    case LoginPage => Public
    case RegisterPage => Public
    case DashboardPage => Protected
    case AdminDashboardPage => Admin
    case PendingApprovalPage => Unguarded
    case AdminLoginPage => Unguarded
    case NotFoundPage => Unguarded
  }

  /** What visiting `path` shows. The pending page is unguarded, but its effect
      navigates away; that navigation counts as a redirect here. */
  function Show(path: string, s: AuthState): View {
    var page := Match(path);
    match GuardOf(page)
    case Public => PublicRoute.Decide(s)
    case Protected => ProtectedRoute.Decide(s)
    case Admin => AdminRoute.Decide(s)
    case Unguarded =>
      if page == PendingApprovalPage && PendingApproval.EffectTarget(s).Some?
      then Redirect(PendingApproval.EffectTarget(s).value)
      else Content
  }

  /** Following the redirects from `path` reaches a page that does not redirect
      after at most `n` of them. */
  predicate SettlesWithin(path: string, s: AuthState, n: nat)
    decreases n
  {
    Show(path, s).Redirect? ==> n > 0 && SettlesWithin(Show(path, s).to, s, n - 1)
  }

  /** The path reached after following at most `n` redirects. */
  function Land(path: string, s: AuthState, n: nat): string
    decreases n
  {
    if n > 0 && Show(path, s).Redirect? then Land(Show(path, s).to, s, n - 1) else path
  }

  function Destination(path: string, s: AuthState): string {
    Land(path, s, 2)
  }

  /** While the session is loading nothing redirects. */
  lemma LoadingNeverRedirects(path: string, s: AuthState)
    requires s.loading
    ensures !Show(path, s).Redirect?
  {
  }

  /** Every redirect target is itself a listed route. */
  lemma RedirectTargetsAreRoutes(path: string, s: AuthState)
    requires Show(path, s).Redirect?
    ensures Match(Show(path, s).to) != NotFoundPage
  {
  }

  /** No redirect loop: every session, on every path, reaches a page that does not
      redirect within two redirects, and the destination is such a page. */
  lemma NoRedirectLoop(path: string, s: AuthState)
    ensures SettlesWithin(path, s, 2)
    ensures !Show(Destination(path, s), s).Redirect?
  {
    var v := Show(path, s);
    if v.Redirect? {
      RedirectTargetsAreRoutes(path, s);
      var w := Show(v.to, s);
      if w.Redirect? {
        assert !Show(w.to, s).Redirect? by { SecondRedirectSettles(path, s); }
      }
    }
  }

  lemma SecondRedirectSettles(path: string, s: AuthState)
    requires Show(path, s).Redirect? && Show(Show(path, s).to, s).Redirect?
    ensures !Show(Show(Show(path, s).to, s).to, s).Redirect?
  {
    var t := Show(path, s).to;
    assert !s.loading;
    if RoleOf(s) == Some(ADMIN) {
      assert Show(t, s).to == ADMIN_DASHBOARD;
    } else if RoleOf(s) == Some(PENDIENTE) {
      assert Show(t, s).to == PENDING_APPROVAL;
    } else if RoleOf(s).Some? {
      assert Show(t, s).to == DASHBOARD;
    } else {
      assert Show(t, s).to == LOGIN;
    }
  }

  /** Two is the least bound that holds for every session: an admin who opens the
      pending page is sent to /dashboard, and from there to the admin area. */
  lemma TwoRedirectsAreNeeded(u: UserId)
    ensures !SettlesWithin(PENDING_APPROVAL, AuthState(false, Some(u), Some(Profile(ADMIN, None, None, None))), 1)
  {
    var s := AuthState(false, Some(u), Some(Profile(ADMIN, None, None, None)));
    assert Show(PENDING_APPROVAL, s) == Redirect(DASHBOARD);
    assert Show(DASHBOARD, s) == Redirect(ADMIN_DASHBOARD);
  }

  /** The pages a guard or the pending page may move a visitor away from. */
  predicate Guarded(path: string) {
    Match(path) in {IndexPage, LoginPage, RegisterPage, PendingApprovalPage, DashboardPage, AdminDashboardPage}
  }

  /** Where each kind of signed-in visitor lands, from every guarded page. */
  lemma AdminLandsOnAdminDashboard(path: string, s: AuthState)
    requires !s.loading && RoleOf(s) == Some(ADMIN) && Guarded(path)
    ensures Destination(path, s) == ADMIN_DASHBOARD
  {
  }

  lemma PendienteLandsOnPendingApproval(path: string, s: AuthState)
    requires !s.loading && RoleOf(s) == Some(PENDIENTE) && Guarded(path)
    ensures Destination(path, s) == PENDING_APPROVAL
  {
  }

  lemma OtherRolesLandOnDashboard(path: string, s: AuthState)
    requires !s.loading && RoleOf(s).Some? && RoleOf(s).value != ADMIN && RoleOf(s).value != PENDIENTE
    requires Guarded(path)
    ensures Destination(path, s) == DASHBOARD
  {
  }

  /** Without a user, the anonymous pages render and every other guarded page leads
      to /login. */
  lemma AnonymousLandsOnLogin(path: string, s: AuthState)
    requires !s.loading && s.user.None? && Guarded(path)
    ensures Match(path) in {IndexPage, LoginPage, RegisterPage} ==> Destination(path, s) == path
    ensures Match(path) in {PendingApprovalPage, DashboardPage, AdminDashboardPage} ==>
      Destination(path, s) == LOGIN
  {
  }

  /** A user whose profile is missing can use the anonymous pages, waits on the
      pending page, and is sent to /login from the two dashboards. */
  lemma MissingProfileLanding(path: string, s: AuthState)
    requires !s.loading && s.user.Some? && s.profile.None? && Guarded(path)
    ensures Match(path) in {IndexPage, LoginPage, RegisterPage, PendingApprovalPage} ==>
      Destination(path, s) == path
    ensures Match(path) in {DashboardPage, AdminDashboardPage} ==> Destination(path, s) == LOGIN
  {
  }
}
