/**
 * The application shell: the `ProtectedRoute` access gate, the route table
 * and the start-up initialisation of the registered-users key.
 */
module App {
  import opened Wrappers
  import opened Records
  import opened Text
  import Storage

  /** What `ProtectedRoute` renders: the wrapped element, or a `<Navigate to=...>`. */
  datatype Decision = Allow | Redirect(to: string)

  /** The default of the `redirectPath` prop. */
  const DefaultRedirect := "/login"

  /** The view a signed-in user is sent to when the role does not fit. */
  function HomeOf(role: Role): (path: string)
    ensures role == AdminRole ==> path == "/admin"
    ensures role == UserRole ==> path == "/dashboard"
  {
    if role == AdminRole then "/admin" else "/dashboard"
  }

  /**
   * The `ProtectedRoute` decision, a function of the session read from storage,
   * the required role (`None` is `null`, the default) and the redirect path.
   */
  function Gate(session: Option<SessionUser>, requiredRole: Option<Role>, redirectPath: string): (d: Decision)
    ensures session.None? ==> d == Redirect(redirectPath)
    ensures session.Some? && requiredRole.None? ==> d == Allow
    ensures session.Some? && requiredRole == Some(session.value.role) ==> d == Allow
    ensures session.Some? && requiredRole.Some? && requiredRole.value != session.value.role ==>
              d == Redirect(HomeOf(session.value.role))
    ensures d == Allow <==> session.Some? && (requiredRole.None? || requiredRole.value == session.value.role)
  {
    if session.None? then Redirect(redirectPath)
    else if requiredRole.Some? && session.value.role != requiredRole.value then Redirect(HomeOf(session.value.role))
    else Allow
  }

  /** The pages of the route table. */
  datatype Page = LoginPage | RegisterPage | DashboardPage | AdminPage | NotFoundPage

  /** A route's element: a page shown as is, or a page wrapped in `ProtectedRoute`. */
  datatype RouteElement =
    | Public(page: Page)
    | Protected(page: Page, requiredRole: Option<Role>, redirectPath: string)

  /** The path without its trailing slashes; the root `/` stays as it is. */
  function TrimTrailingSlashes(path: string): (r: string)
    ensures |r| <= |path| && r == path[..|r|]
    ensures |r| <= 1 || r[|r| - 1] != '/'
    ensures forall i :: |r| <= i < |path| ==> path[i] == '/'
    ensures |path| > 0 ==> |r| > 0
  {
    if |path| > 1 && path[|path| - 1] == '/' then TrimTrailingSlashes(path[..|path| - 1]) else path
  }

  /**
   * What the router compares with the route paths: route matching ignores
   * letter case and any trailing slashes.
   */
  function RouteKey(path: string): (k: string)
    ensures |path| > 0 ==> |k| > 0
    ensures forall i :: 0 <= i < |k| ==> !IsUpper(k[i])
    ensures |k| <= 1 || k[|k| - 1] != '/'
  {
    ToLower(TrimTrailingSlashes(path))
  }

  /** The `<Routes>` table; `*` catches every other path. */
  function RouteFor(path: string): (e: RouteElement)
    ensures RouteKey(path) == "/dashboard" ==> e == Protected(DashboardPage, None, DefaultRedirect)
    ensures RouteKey(path) == "/admin" ==> e == Protected(AdminPage, Some(AdminRole), DefaultRedirect)
    ensures e.Protected? <==> RouteKey(path) == "/dashboard" || RouteKey(path) == "/admin"
    ensures RouteKey(path) == "/" || RouteKey(path) == "/login" ==> e == Public(LoginPage)
    ensures RouteKey(path) == "/register" ==> e == Public(RegisterPage)
    ensures RouteKey(path) !in {"/", "/login", "/register", "/dashboard", "/admin"} ==> e == Public(NotFoundPage)
  {
    var key := RouteKey(path);
    if key == "/" || key == "/login" then Public(LoginPage)
    else if key == "/register" then Public(RegisterPage)
    else if key == "/dashboard" then Protected(DashboardPage, None, DefaultRedirect)
    else if key == "/admin" then Protected(AdminPage, Some(AdminRole), DefaultRedirect)
    else Public(NotFoundPage)
  }

  /** Trimming slashes and lower-casing commute, since `/` is not a letter. */
  lemma {:induction false} TrimLowerCommute(p: string)
    ensures TrimTrailingSlashes(ToLower(p)) == ToLower(TrimTrailingSlashes(p))
    decreases |p|
  {
    if |p| > 1 && p[|p| - 1] == '/' {
      assert ToLower(p)[..|p| - 1] == ToLower(p[..|p| - 1]);
      TrimLowerCommute(p[..|p| - 1]);
    }
  }

  /** Paths that differ only in letter case have the same route key. */
  lemma RouteKeyIgnoresCase(p: string, q: string)
    requires ToLower(p) == ToLower(q)
    ensures RouteKey(p) == RouteKey(q)
  {
    TrimLowerCommute(p);
    TrimLowerCommute(q);
  }

  /** A trailing slash does not change the route key. */
  lemma RouteKeyIgnoresTrailingSlash(p: string)
    requires |p| > 0
    ensures RouteKey(p + "/") == RouteKey(p)
  {
    assert (p + "/")[..|p|] == p;
  }

  /** The root, with or without extra slashes, shows the login view. */
  lemma RootShowsLogin()
    ensures RouteFor("/") == RouteFor("//") == Public(LoginPage)
  {
    assert TrimTrailingSlashes("//") == "/";
  }

  /** Spellings that differ in case or trailing slashes reach the same gated route. */
  lemma AdminRouteVariants()
    ensures RouteFor("/Admin/") == RouteFor("/admin") == Protected(AdminPage, Some(AdminRole), DefaultRedirect)
    ensures RouteFor("/DASHBOARD//") == Protected(DashboardPage, None, DefaultRedirect)
  {
    assert TrimTrailingSlashes("/Admin/") == "/Admin";
    assert ToLower("/Admin") == "/admin";
    assert TrimTrailingSlashes("/DASHBOARD//") == "/DASHBOARD";
    assert ToLower("/DASHBOARD") == "/dashboard";
  }

  /** What visiting `path` with `session` in storage leads to. */
  datatype Visit = Show(page: Page) | GoTo(path: string)

  function VisitPath(path: string, session: Option<SessionUser>): (v: Visit)
    ensures RouteFor(path).Public? ==> v == Show(RouteFor(path).page)
  {
    match RouteFor(path)
    case Public(p) => Show(p)
    case Protected(p, role, redirect) =>
      match Gate(session, role, redirect)
      case Allow => Show(p)
      case Redirect(to) => GoTo(to)
  }

  /** Without a session both protected views send the visitor to the login view. */
  lemma ProtectedViewsNeedSession(path: string)
    requires path == "/dashboard" || path == "/admin"
    ensures VisitPath(path, None) == GoTo("/login")
  {
  }

  /** `/dashboard` requires no role, so an administrator is let in too. */
  lemma AdminMayOpenDashboard(s: SessionUser)
    ensures VisitPath("/dashboard", Some(s)) == Show(DashboardPage)
  {
  }

  /** `/admin` admits exactly the administrators; anybody else signed in lands on `/dashboard`. */
  lemma AdminViewOnlyForAdmins(s: SessionUser)
    ensures s.role == AdminRole ==> VisitPath("/admin", Some(s)) == Show(AdminPage)
    ensures s.role == UserRole ==> VisitPath("/admin", Some(s)) == GoTo("/dashboard")
  {
  }

  /** The start-up effect: create `registeredUsers` as `[]` only when it is absent. */
  method InitRegisteredUsers(storage: Storage.BrowserStorage)
    modifies storage
    ensures old(storage.registeredUsers).None? ==> storage.registeredUsers == Some([])
    ensures old(storage.registeredUsers).Some? ==> storage.registeredUsers == old(storage.registeredUsers)
    ensures storage.RegisteredUsers() == old(storage.RegisteredUsers())
    ensures storage.currentUser == old(storage.currentUser) && storage.tickets == old(storage.tickets)
  {
    if storage.registeredUsers.None? {
      storage.registeredUsers := Some([]);
    }
  }
}
