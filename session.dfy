/** The session: the token and role kept in the browser's storage, written by
    the login page and cleared by the navigation bar's logout; the menu the
    navigation bar shows for them; the role guard of the protected routes and
    the route table of the application. */
module Session {
  import opened Base

  /** The `token` and `role` entries of `localStorage`; `None` is an absent entry. */
  class Storage {
    var token: Option<string>
    var role: Option<string>

    /** Both entries are written together and removed together. */
    ghost predicate Valid()
      reads this
    {
      token.Some? <==> role.Some?
    }

    /** A browser that has not logged in yet. */
    constructor ()
      ensures Valid()
      ensures token == None && role == None
    {
      token := None;
      role := None;
    }
  }

  /** The `data` of a successful login response. */
  datatype LoginData = LoginData(token: string, role: string)

  const MSG_LOGIN_FAILED := "Login failed! Please check your credentials."

  /** Where the login page goes after storing the session: the dashboard of
      the role, nowhere for any other role. */
  function LoginRedirect(role: string): (r: Option<string>)
    ensures role == ADMIN <==> r == Some("/admin-dashboard")
    ensures role == KASIR <==> r == Some("/kasir-dashboard")
    ensures role != ADMIN && role != KASIR <==> r.None?
  {
    if role == ADMIN then Some("/admin-dashboard")
    else if role == KASIR then Some("/kasir-dashboard")
    else None
  }

  class LoginPage {
    var errorMessage: string

    constructor ()
      ensures errorMessage == ""
    {
      errorMessage := "";
    }

    /** `handleLogin`. `response` is the login response, `None` when the
        request fails; `navigation` is the path navigated to, if any. */
    method HandleLogin(storage: Storage, response: Option<LoginData>) returns (navigation: Option<string>)
      requires storage.Valid()
      modifies this, storage
      ensures storage.Valid()
      ensures response.Some? ==>
        && storage.token == Some(response.value.token) && storage.role == Some(response.value.role)
        && navigation == LoginRedirect(response.value.role)
        && errorMessage == old(errorMessage)
      ensures response.None? ==>
        && storage.token == old(storage.token) && storage.role == old(storage.role)
        && navigation.None?
        && errorMessage == MSG_LOGIN_FAILED
    {
      if response.None? {
        errorMessage := MSG_LOGIN_FAILED;
        return None;
      }
      var data := response.value;
      storage.token := Some(data.token);
      storage.role := Some(data.role);
      if data.role == ADMIN {
        navigation := Some("/admin-dashboard");
      } else if data.role == KASIR {
        navigation := Some("/kasir-dashboard");
      } else {
        navigation := None;
      }
    }
  }

  /** `handleLogout`: both entries are removed and the bar goes to `/login`. */
  method Logout(storage: Storage) returns (navigation: string)
    modifies storage
    ensures storage.Valid()
    ensures storage.token == None && storage.role == None
    ensures navigation == "/login"
  {
    storage.token := None;
    storage.role := None;
    navigation := "/login";
  }

  datatype MenuItem = HomeLink | LoginLink | RegisterLink | CreateUserLink | LogoutButton

  /** The items of the navigation bar, in order, for the stored token and role. */
  function Menu(token: Option<string>, role: Option<string>): (r: seq<MenuItem>)
    ensures |r| >= 1 && r[0] == HomeLink
    ensures LoginLink in r <==> !Truthy(token)
    ensures RegisterLink in r <==> !Truthy(token)
    ensures CreateUserLink in r <==> Truthy(token) && role == Some(ADMIN)
    ensures LogoutButton in r <==> Truthy(token) && (role == Some(ADMIN) || role == Some(KASIR))
    ensures Truthy(token) && role != Some(ADMIN) && role != Some(KASIR) ==> r == [HomeLink]
  {
    [HomeLink]
      + (if !Truthy(token) then [LoginLink, RegisterLink] else [])
      + (if Truthy(token) && role == Some(ADMIN) then [CreateUserLink, LogoutButton] else [])
      + (if Truthy(token) && role == Some(KASIR) then [LogoutButton] else [])
  }

  /** The path a menu link leads to; the logout button is not a link. */
  function LinkTarget(item: MenuItem): (r: Option<string>)
    ensures r.None? <==> item == LogoutButton
    ensures r.Some? ==> r.value in ROUTES
  {
    match item
    case HomeLink => Some("/")
    case LoginLink => Some("/login")
    case RegisterLink => Some("/register")
    case CreateUserLink => Some("/create-user")
    case LogoutButton => None
  }

  /** What a route shows. */
  datatype View = Render | Redirect(to: string, replace: bool, from: string) | NoMatch

  /** `ProtectedRoute`: the children when the stored role is one of
      `allowedRoles`, otherwise a redirect to `/login` that replaces the
      history entry and remembers `location`. Only the role is consulted. */
  function Guard(allowedRoles: seq<string>, role: Option<string>, location: string): (r: View)
    ensures r == Render <==> role.Some? && role.value in allowedRoles
    ensures r != Render ==> r == Redirect("/login", true, location)
  {
    if role.Some? && role.value in allowedRoles then Render else Redirect("/login", true, location)
  }

  /** The route table: each path with the roles allowed on it, `None` for a
      public route. */
  const ROUTES: map<string, Option<seq<string>>> := map[
    "/" := None,
    "/login" := None,
    "/register" := None,
    "/admin-dashboard" := Some([ADMIN]),
    "/create-user" := Some([ADMIN]),
    "/kasir-dashboard" := Some([KASIR])]

  // ----- path matching -----

  /** The path without its trailing slashes, keeping its first character. */
  function StripTrailingSlashes(path: string): (r: string)
    ensures |r| <= |path| && r == path[..|r|]
    ensures forall i :: |r| <= i < |path| ==> path[i] == '/'
    ensures |r| <= 1 || r[|r| - 1] != '/'
    ensures path != [] ==> r != []
  {
    if |path| >= 2 && path[|path| - 1] == '/' then StripTrailingSlashes(path[..|path| - 1]) else path
  }

  /** The pattern a route's path compiles to, the path followed by any number
      of slashes, ignoring letter case: the path matches `key` in its first `|key|` characters, up to case,
      and has nothing but slashes after them. */
  predicate MatchesRoute(key: string, path: string) {
    && |key| <= |path|
    && Lower(path[..|key|]) == Lower(key)
    && forall i :: |key| <= i < |path| ==> path[i] == '/'
  }

  /** A route path as written in the table: not empty, ending in a slash only
      when it is `/`, and without capital letters. */
  predicate CanonicalKey(key: string) {
    && |key| >= 1 && (|key| == 1 || key[|key| - 1] != '/')
    && forall i :: 0 <= i < |key| ==> !('A' <= key[i] <= 'Z')
  }

  lemma RouteKeysCanonical()
    ensures forall key :: key in ROUTES ==> CanonicalKey(key)
  {
  }

  /** Each table path reaches its own route. */
  lemma RouteOfKey(key: string)
    requires key in ROUTES
    ensures Route(key) == Some(key)
  {
    RouteKeysCanonical();
    MatchesIffCanonical(key, key);
    assert key[..|key|] == key;
  }

  /** The route `path` matches: the table key equal to the path with its
      trailing slashes removed and its letters lowered, if any. */
  function Route(path: string): (r: Option<string>)
    ensures r.Some? ==> r.value in ROUTES && MatchesRoute(r.value, path)
    ensures r.None? ==> forall key :: key in ROUTES ==> !MatchesRoute(key, path)
  {
    var c := Lower(StripTrailingSlashes(path));
    RouteKeysCanonical();
    if c in ROUTES then
      MatchesIffCanonical(c, path);
      Some(c)
    else
      assert forall key :: key in ROUTES ==> !MatchesRoute(key, path) by {
        forall key | key in ROUTES ensures !MatchesRoute(key, path) {
          MatchesIffCanonical(key, path);
        }
      }
      None
  }

  /** A path matches a table key exactly when lowering the path stripped of
      its trailing slashes gives the key. */
  lemma MatchesIffCanonical(key: string, path: string)
    requires CanonicalKey(key)
    ensures MatchesRoute(key, path) <==> Lower(StripTrailingSlashes(path)) == key
  {
    LowerWithoutCapitals(key);
    var q := StripTrailingSlashes(path);
    if MatchesRoute(key, path) {
      assert |q| == |key|;
      assert q == path[..|key|];
    }
    if Lower(q) == key {
      assert q == path[..|key|];
    }
  }

  /** What visiting `path` shows for the stored role; a guarded route
      remembers the path as it was visited. */
  function Visit(path: string, role: Option<string>): (r: View)
    ensures Route(path).None? <==> r == NoMatch
    ensures Route(path).Some? && ROUTES[Route(path).value].None? ==> r == Render
    ensures Route(path).Some? && ROUTES[Route(path).value].Some? ==>
      r == Guard(ROUTES[Route(path).value].value, role, path)
  {
    match Route(path)
    case None => NoMatch
    case Some(key) =>
      match ROUTES[key]
      case None => Render
      case Some(allowedRoles) => Guard(allowedRoles, role, path)
  }

  /** Matching ignores letter case and trailing slashes. */
  lemma RouteIgnoresCaseAndSlash(path: string)
    requires path != []
    ensures Route(path + "/") == Route(path)
    ensures Route(Lower(path)) == Route(path)
  {
    RouteKeysCanonical();
    assert (path + "/")[..|path|] == path;
    var q := StripTrailingSlashes(path);
    var l := Lower(path);
    var ql := StripTrailingSlashes(l);
    assert |ql| == |q|;
    assert Lower(ql) == Lower(q);
  }

  /** Paths the route table does not spell out still reach its routes: a
      capitalised path with a trailing slash, a capitalised guarded path, and
      the root written with two slashes. */
  lemma LoginUpToCase(role: Option<string>)
    ensures Visit("/LOGIN/", role) == Render
  {
    RouteIgnoresCaseAndSlash("/LOGIN");
    assert Lower("/LOGIN") == "/login";
    RouteOfKey("/login");
  }

  lemma AdminDashboardUpToCase()
    ensures Visit("/Admin-Dashboard", Some(KASIR)) == Redirect("/login", true, "/Admin-Dashboard")
  {
    RouteIgnoresCaseAndSlash("/Admin-Dashboard");
    assert Lower("/Admin-Dashboard") == "/admin-dashboard";
    RouteOfKey("/admin-dashboard");
  }

  lemma RootUpToSlashes(role: Option<string>)
    ensures Visit("//", role) == Render
  {
    RouteIgnoresCaseAndSlash("/");
    RouteOfKey("/");
  }

  /** A route does not match a longer path that merely starts with it. */
  lemma NoPrefixMatch(role: Option<string>)
    ensures Visit("/login/x", role) == NoMatch
  {
    assert StripTrailingSlashes("/login/x") == "/login/x";
    LowerWithoutCapitals("/login/x");
  }

  /** The public routes render for everyone; the admin routes only for ADMIN,
      the kasir dashboard only for KASIR. */
  lemma RouteTable(role: Option<string>)
    ensures Visit("/", role) == Render && Visit("/login", role) == Render && Visit("/register", role) == Render
    ensures Visit("/admin-dashboard", role) == Render <==> role == Some(ADMIN)
    ensures Visit("/create-user", role) == Render <==> role == Some(ADMIN)
    ensures Visit("/kasir-dashboard", role) == Render <==> role == Some(KASIR)
  {
    RouteOfKey("/");
    RouteOfKey("/login");
    RouteOfKey("/register");
    RouteOfKey("/admin-dashboard");
    RouteOfKey("/create-user");
    RouteOfKey("/kasir-dashboard");
    assert "/admin-dashboard"[1] != "/kasir-dashboard"[1];
  }

  /** No guarded route admits both roles. */
  lemma NoRouteForBothRoles()
    ensures forall path :: path in ROUTES && ROUTES[path].Some? ==>
      !(ADMIN in ROUTES[path].value && KASIR in ROUTES[path].value)
  {
  }

  /** A cashier on an admin route, or an administrator on the cashier's
      dashboard, is sent to `/login`. */
  lemma CrossRoleRedirects()
    ensures Visit("/admin-dashboard", Some(KASIR)) == Redirect("/login", true, "/admin-dashboard")
    ensures Visit("/create-user", Some(KASIR)) == Redirect("/login", true, "/create-user")
    ensures Visit("/kasir-dashboard", Some(ADMIN)) == Redirect("/login", true, "/kasir-dashboard")
  {
    RouteTable(Some(KASIR));
    RouteTable(Some(ADMIN));
  }

  /** With no stored role, as after a logout, every path reaching a guarded
      route redirects. */
  lemma GuardedRoutesNeedRole(path: string)
    requires Route(path).Some? && ROUTES[Route(path).value].Some?
    ensures Visit(path, None) == Redirect("/login", true, path)
  {
  }

  /** The page the login goes to renders for the role just stored. */
  lemma LoginLandsOnItsDashboard(role: string)
    requires LoginRedirect(role).Some?
    ensures Visit(LoginRedirect(role).value, Some(role)) == Render
  {
    RouteTable(Some(role));
  }

  /** Every link of the navigation bar leads to a route that renders for the
      stored role. */
  lemma MenuLinksRender(token: Option<string>, role: Option<string>, item: MenuItem)
    requires item in Menu(token, role) && LinkTarget(item).Some?
    ensures Visit(LinkTarget(item).value, role) == Render
  {
    RouteTable(role);
  }

  /** A consistent storage stores a role only with a token, so a guarded page
      is shown only to a session holding a token; with no role stored, as
      after a logout, the bar offers Login and Register and every guarded
      route redirects. */
  lemma StorageSessionView(storage: Storage, path: string)
    requires storage.Valid()
    ensures Route(path).Some? && ROUTES[Route(path).value].Some? && Visit(path, storage.role) == Render
      ==> storage.token.Some?
    ensures storage.role.None? ==> Menu(storage.token, storage.role) == [HomeLink, LoginLink, RegisterLink]
    ensures storage.role.None? && Route(path).Some? && ROUTES[Route(path).value].Some?
      ==> Visit(path, storage.role) == Redirect("/login", true, path)
  {
  }
}
