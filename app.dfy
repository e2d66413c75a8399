/**
 The application shell: the two route guards and the route table. The auth
 hook (user, loading) and the role hook (role, loading) are taken as inputs;
 paths are relative to the router's basename.
 */
module App {
  import opened Backend

  /** What the auth and role hooks report on a render. */
  datatype Session = Session(userPresent: bool, loading: bool, role: Option<string>, roleLoading: bool)

  /** What a route renders. */
  datatype Screen =
    | Loader
    | Redirect(to: string)
    | IndexScreen
    | AuthScreen
    | AdminPanel
    | NotFound

  /** The role that opens the admin panel. */
  const AdminRole := "admin"

  predicate IsAdmin(s: Session)
  {
    s.role == Some(AdminRole)
  }

  /** The home route: wait for auth (and for the role once someone is signed
      in), send an admin to the admin panel, and show the home page to
      everyone else, signed in or not; no onboarding check is made here. */
  function HomeRoute(s: Session): (v: Screen)
    ensures v == Loader <==> s.loading || (s.userPresent && s.roleLoading)
    ensures v != Loader ==> (v == Redirect("/admin") <==> IsAdmin(s))
    ensures v != Loader ==> (v == IndexScreen <==> !IsAdmin(s))
    ensures !v.Redirect? || v.to == "/admin"
  {
    if s.loading || (s.userPresent && s.roleLoading) then Loader
    else if IsAdmin(s) then Redirect("/admin")
    else IndexScreen
  }

  /** The admin guard: wait for auth and for the role whether or not anyone
      is signed in; then the sign-in check comes before the role check. */
  function AdminRoute(s: Session): (v: Screen)
    ensures v == Loader <==> s.loading || s.roleLoading
    ensures v == AdminPanel <==> !s.loading && !s.roleLoading && s.userPresent && IsAdmin(s)
    ensures v != Loader && !s.userPresent ==> v == Redirect("/auth")
    ensures v != Loader && s.userPresent && !IsAdmin(s) ==> v == Redirect("/")
  {
    if s.loading || s.roleLoading then Loader
    else if !s.userPresent then Redirect("/auth")
    else if !IsAdmin(s) then Redirect("/")
    else AdminPanel
  }

  /** The entries of the route table. */
  datatype Route = AuthRoute | AdminGuardRoute | HomeGuardRoute | CatchAll

  /** The route table: three exact paths and a catch-all. */
  function RouteFor(path: string): (rt: Route)
    ensures rt == AuthRoute <==> path == "/auth"
    ensures rt == AdminGuardRoute <==> path == "/admin"
    ensures rt == HomeGuardRoute <==> path == "/"
    ensures rt == CatchAll <==> path !in {"/auth", "/admin", "/"}
  {
    if path == "/auth" then AuthRoute
    else if path == "/admin" then AdminGuardRoute
    else if path == "/" then HomeGuardRoute
    else CatchAll
  }

  /** What a path renders for a given session. */
  function Resolve(path: string, s: Session): (v: Screen)
    ensures v == AuthScreen <==> path == "/auth"
    ensures v == NotFound <==> path !in {"/auth", "/admin", "/"}
    ensures v == AdminPanel <==> path == "/admin" && AdminRoute(s) == AdminPanel
  {
    match RouteFor(path)
    case AuthRoute => AuthScreen
    case AdminGuardRoute => AdminRoute(s)
    case HomeGuardRoute => HomeRoute(s)
    case CatchAll => NotFound
  }

  /** Only a signed-in admin ever sees the admin panel, and only once both
      hooks have settled. */
  lemma AdminPanelOnlyForAdmins(path: string, s: Session)
    requires Resolve(path, s) == AdminPanel
    ensures path == "/admin" && s.userPresent && IsAdmin(s) && !s.loading && !s.roleLoading
  {
    assert AdminRoute(s) == AdminPanel;
  }

  /** Redirects never loop: following them from any path reaches a screen
      that is not a redirect within two hops. */
  lemma RedirectsSettle(path: string, s: Session)
    ensures Resolve(path, s).Redirect? ==>
      var t := Resolve(path, s).to;
      Resolve(t, s).Redirect? ==> !Resolve(Resolve(t, s).to, s).Redirect?
  {
    if Resolve(path, s).Redirect? {
      var t := Resolve(path, s).to;
      assert t in {"/", "/admin", "/auth"};
      if Resolve(t, s).Redirect? {
        var t2 := Resolve(t, s).to;
        assert t2 in {"/", "/admin", "/auth"};
      }
    }
  }

  /** For a signed-in user a single redirect already lands on a screen that
      is not a redirect. */
  lemma SignedInRedirectsOnce(path: string, s: Session)
    requires s.userPresent
    ensures Resolve(path, s).Redirect? ==> !Resolve(Resolve(path, s).to, s).Redirect?
  {
    if Resolve(path, s).Redirect? {
      var t := Resolve(path, s).to;
      assert t in {"/", "/admin"};
    }
  }
}
