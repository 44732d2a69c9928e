/** The router shell (frontend/src/App.jsx): reading the stored user, the
    guard in front of every page but the login and sign-up pages, and the
    role-to-dashboard map. */
module App {
  import opened Common

  /** The stored `user` item: text that parses as JSON, or text that does not. */
  datatype UserItem = Parsed(value: Json) | Unparseable

  /** The two items of the browser's local storage that the pages use. */
  datatype Storage = Storage(token: Option<string>, user: Option<UserItem>)

  const EMPTY_STORAGE := Storage(None, None)

  /** `getUserFromStorage`: the parsed user, or `{}` when nothing is stored,
      the text does not parse, or it parses to a falsy value. */
  function GetUserFromStorage(s: Storage): (u: Json)
    ensures Truthy(u)
    ensures u == Obj(map[]) || s.user == Some(Parsed(u))
    ensures (s.user.None? || s.user == Some(Unparseable)) ==> u == Obj(map[])
    ensures s.user.Some? && s.user.value.Parsed? && Truthy(s.user.value.value) ==> u == s.user.value.value
  {
    match s.user
    case None => Obj(map[])
    case Some(Unparseable) => Obj(map[])
    case Some(Parsed(v)) => if Truthy(v) then v else Obj(map[])
  }

  /** `!token` fails for a missing token and for the empty string. */
  predicate HasToken(s: Storage) {
    s.token.Some? && s.token.value != ""
  }

  /** `user.role` is truthy. */
  predicate HasRole(u: Json) {
    Truthy(Get(u, "role"))
  }

  datatype Guarded = RenderChildren | RedirectTo(path: string, replace: bool)

  /** `PrivateRoute`. */
  function PrivateRoute(s: Storage): (g: Guarded)
    ensures g.RenderChildren? ==>
      HasToken(s) && s.user.Some? && s.user.value.Parsed? && HasRole(s.user.value.value)
    ensures g.RedirectTo? ==> g == RedirectTo("/", true)
  {
    var user := GetUserFromStorage(s);
    if !HasToken(s) || !HasRole(user) then RedirectTo("/", true) else RenderChildren
  }

  /** A stored token together with a stored user that has a role opens every
      guarded page. */
  lemma PrivateRoutePasses(s: Storage)
    requires HasToken(s) && s.user.Some? && s.user.value.Parsed? && HasRole(s.user.value.value)
    ensures PrivateRoute(s) == RenderChildren
  {
    assert Truthy(s.user.value.value) by {
      var v := s.user.value.value;
      assert v.Obj?;
    }
  }

  /** Nothing stored, or no token: back to the login page. */
  lemma PrivateRouteWithoutToken(s: Storage)
    requires !HasToken(s)
    ensures PrivateRoute(s) == RedirectTo("/", true)
  {
  }

  /** `roleRedirects`. */
  const ROLE_REDIRECTS: map<string, string> := map[
    "Admin" := "/admin-dashboard",
    "Manager" := "/manager-dashboard",
    "Employee" := "/employee-dashboard"]

  /** `roleRedirects[user.role]` for a role given as a string. */
  function RedirectPath(role: Json): (p: Option<string>)
    ensures p.Some? <==> role.Str? && role.s in ROLE_REDIRECTS
    ensures role == Str("Admin") ==> p == Some("/admin-dashboard")
    ensures role == Str("Manager") ==> p == Some("/manager-dashboard")
    ensures role == Str("Employee") ==> p == Some("/employee-dashboard")
  {
    if role.Str? && role.s in ROLE_REDIRECTS then Some(ROLE_REDIRECTS[role.s]) else None
  }

  /** Where the browser goes after `RoleBasedRedirect`'s effect runs. The
      effect computes the path of the stored role and drops it, so the
      location stays as it was. */
  function RoleBasedRedirect(s: Storage, location: string): (next: string)
    ensures next == location
  {
    var user := GetUserFromStorage(s);
    var unused := if HasRole(user) then RedirectPath(Get(user, "role")) else None;
    location
  }

  /** A route of the table: its path and whether `PrivateRoute` wraps it. */
  datatype Route = Route(path: string, page: string, guarded: bool)

  const ROUTES: seq<Route> := [
    Route("/", "Login", false),
    Route("/signup", "Signup", false),
    Route("/manager-dashboard", "Manager", true),
    Route("/admin-dashboard", "Admin", true),
    Route("/employee-dashboard", "Employee", true),
    Route("/employee", "EmployeeForm", true),
    Route("/project", "Project", true),
    Route("/settings", "Settings", true),
    Route("/user", "UsersTable", true),
    Route("/leave", "Leave", true),
    Route("/careers", "Careers", true),
    Route("/mailrequest", "MailRequest", true)
  ]

  /** Whether a route's pattern matches a location path as the router
      compiles it: without regard to (ASCII) case, and with any number of
      slashes after the pattern. */
  predicate PathMatches(pattern: string, path: string) {
    && |pattern| <= |path|
    && Lower(path[..|pattern|]) == Lower(pattern)
    && forall k :: |pattern| <= k < |path| ==> path[k] == '/'
  }

  /** The first route of `routes` whose pattern matches the path. */
  function Lookup(routes: seq<Route>, path: string): (r: Option<Route>)
    ensures r.Some? ==> r.value in routes && PathMatches(r.value.path, path)
    ensures r.None? ==> forall k :: 0 <= k < |routes| ==> !PathMatches(routes[k].path, path)
  {
    if routes == [] then None
    else if PathMatches(routes[0].path, path) then Some(routes[0])
    else Lookup(routes[1..], path)
  }

  /** The page shown at `path`: found in the table, and past the guard when
      the route has one. */
  function Visit(s: Storage, path: string): (shown: Option<string>)
    ensures shown.Some? ==> exists r :: r in ROUTES && PathMatches(r.path, path) && r.page == shown.value
    ensures shown.Some? && PrivateRoute(s).RedirectTo? ==>
      exists r :: r in ROUTES && PathMatches(r.path, path) && !r.guarded
    ensures Lookup(ROUTES, path).Some?
      && (!Lookup(ROUTES, path).value.guarded || PrivateRoute(s).RenderChildren?)
      ==> shown == Some(Lookup(ROUTES, path).value.page)
  {
    match Lookup(ROUTES, path)
    case None => None
    case Some(r) => if !r.guarded || PrivateRoute(s).RenderChildren? then Some(r.page) else None
  }

  /** Only the login and sign-up pages open without passing the guard. */
  lemma OpenRoutes(path: string)
    ensures (exists r :: r in ROUTES && PathMatches(r.path, path) && !r.guarded) <==>
      PathMatches("/", path) || PathMatches("/signup", path)
  {
    if PathMatches("/", path) { assert ROUTES[0] in ROUTES; }
    if PathMatches("/signup", path) { assert ROUTES[1] in ROUTES; }
  }

  /** Without a token only the login and sign-up patterns show a page. */
  lemma VisitWithoutToken(s: Storage, path: string)
    requires !HasToken(s)
    ensures Visit(s, path).Some? ==> PathMatches("/", path) || PathMatches("/signup", path)
  {
    OpenRoutes(path);
  }

  /** The sign-up page also opens, without a token, at a differently cased
      path with a trailing slash. */
  lemma SignupPathVariant()
    ensures Visit(EMPTY_STORAGE, "/SignUp/") == Some("Signup")
  {
    var path := "/SignUp/";
    assert !PathMatches("/", path) by { assert path[1] != '/'; }
    assert PathMatches("/signup", path) by {
      assert path[..7] == "/SignUp";
      assert Lower("/SignUp") == "/signup";
      assert Lower("/signup") == "/signup";
    }
    assert Lookup(ROUTES, path) == Lookup(ROUTES[1..], path);
    assert Lookup(ROUTES, path) == Some(ROUTES[1]);
  }

  /** Every path appears once in the table, so a path names one page. */
  lemma RoutePathsDistinct()
    ensures forall i, j :: 0 <= i < j < |ROUTES| ==> ROUTES[i].path != ROUTES[j].path
  {
  }
}
