/**
 * The client's static route table and the guard that runs before every
 * navigation.
 */
module Router {
  import opened Wrappers
  import opened Auth

  /** One entry of the route table; `requiresAuth` is its `meta` flag. */
  datatype Route = Route(path: string, name: string, requiresAuth: bool)

  const Routes: seq<Route> := [
    Route("/", "Home", false),
    Route("/projects", "Projects", false),
    Route("/projects/:id", "ProjectDetail", false),
    Route("/projects/create", "ProjectCreate", true),
    Route("/projects/:id/edit", "ProjectEdit", true),
    Route("/projects/:id/donate", "Donate", true),
    Route("/login", "Login", false),
    Route("/register", "Register", false),
    Route("/profile", "Profile", true),
    Route("/profile/edit", "ProfileEdit", true),
    Route("/users/:id", "UserProfile", false),
    Route("/about", "About", false),
    Route("/contacts", "Contacts", false),
    Route("/verification", "Verification", true),
    Route("/categories", "Categories", false),
    Route("/categories/create", "CategoryCreate", true),
    Route("/categories/:id/edit", "CategoryEdit", true),
    Route("/events", "Events", false),
    Route("/events/:id", "EventDetail", false),
    Route("/events/create", "EventCreate", true),
    Route("/events/:id/edit", "EventEdit", true)
  ]

  const LoginPath: string := "/login"
  const HomePath: string := "/"

  /** What the guard sees of the navigation target: its name (absent for a
      location no route matches) and whether its `meta.requiresAuth` is
      truthy (an unmatched location has no `meta` flag). */
  datatype Target = Target(name: Option<string>, requiresAuth: bool)

  function TargetOf(r: Route): Target
  {
    Target(Some(r.name), r.requiresAuth)
  }

  /** `next()` or `next(path)` */
  datatype Decision = Proceed | Redirect(path: string)

  predicate IsAuthPage(to: Target)
  {
    to.name == Some("Login") || to.name == Some("Register")
  }

  /** The `beforeEach` guard: it lets through exactly the navigations the
      access policy admits, and otherwise redirects to one of the two fixed
      pages. */
  function Guard(to: Target, authData: Option<AuthData>): (d: Decision)
    ensures d == Proceed || d == Redirect(LoginPath) || d == Redirect(HomePath)
    ensures d == Proceed <==> Admissible(to, authData)
  {
    var loggedIn := LoggedIn(authData);
    if to.requiresAuth && !loggedIn then Redirect(LoginPath)
    else if !to.requiresAuth && loggedIn && IsAuthPage(to) then Redirect(HomePath)
    else Proceed
  }

  /** The access policy the guard enforces, stated on its own: protected
      pages only when logged in, the login and registration pages only when
      logged out (unless the page itself is marked protected). */
  predicate Admissible(to: Target, authData: Option<AuthData>)
  {
    && (to.requiresAuth ==> LoggedIn(authData))
    && (LoggedIn(authData) && !to.requiresAuth ==> !IsAuthPage(to))
  }

  /** The guard lets a navigation through exactly when the policy admits
      it, and every redirect names one of the two fixed pages. */
  lemma GuardEnforcesPolicy(to: Target, authData: Option<AuthData>)
    ensures Guard(to, authData) == Proceed <==> Admissible(to, authData)
    ensures Guard(to, authData) == Redirect(LoginPath) <==> to.requiresAuth && !LoggedIn(authData)
    ensures Guard(to, authData) == Redirect(HomePath) <==>
              !to.requiresAuth && LoggedIn(authData) && IsAuthPage(to)
  {
  }

  /** The route-table entry at `path`, matched literally. Only the redirect
      targets are looked up, and neither has a parameter segment. */
  function RouteAt(path: string): (r: Option<Route>)
    ensures r.Some? ==> r.value in Routes && r.value.path == path
  {
    FindRoute(Routes, path)
  }

  function FindRoute(rs: seq<Route>, path: string): (r: Option<Route>)
    ensures r.Some? ==> r.value in rs && r.value.path == path
    ensures r.None? ==> forall i :: 0 <= i < |rs| ==> rs[i].path != path
  {
    if rs == [] then None
    else if rs[0].path == path then Some(rs[0])
    else FindRoute(rs[1..], path)
  }

  /** No redirect loops: wherever the guard sends a navigation, the table
      has a route there, and the guard lets the follow-up navigation to it
      through in the same session. */
  lemma {:induction false} NoRedirectLoop(to: Target, authData: Option<AuthData>)
    ensures Guard(to, authData).Redirect? ==> RouteAt(Guard(to, authData).path).Some?
    ensures Guard(to, authData).Redirect? ==>
              Guard(TargetOf(RouteAt(Guard(to, authData).path).value), authData) == Proceed
  {
    if Guard(to, authData) == Redirect(LoginPath) {
      LoginRoute();
    } else if Guard(to, authData) == Redirect(HomePath) {
      HomeRoute();
    }
  }

  lemma LoginRoute()
    ensures RouteAt(LoginPath) == Some(Route("/login", "Login", false))
  {
    var rs := Routes;
    assert rs[0].path != LoginPath;
    assert rs[1].path != LoginPath by { assert rs[1].path[1] != LoginPath[1]; }
    assert rs[2].path != LoginPath by { assert rs[2].path[1] != LoginPath[1]; }
    assert rs[3].path != LoginPath by { assert rs[3].path[1] != LoginPath[1]; }
    assert rs[4].path != LoginPath by { assert rs[4].path[1] != LoginPath[1]; }
    assert rs[5].path != LoginPath by { assert rs[5].path[1] != LoginPath[1]; }
    assert FindRoute(rs, LoginPath) == FindRoute(rs[1..], LoginPath) == FindRoute(rs[2..], LoginPath)
        == FindRoute(rs[3..], LoginPath) == FindRoute(rs[4..], LoginPath)
        == FindRoute(rs[5..], LoginPath) == FindRoute(rs[6..], LoginPath);
    assert rs[6..][0] == Route("/login", "Login", false);
  }

  lemma HomeRoute()
    ensures RouteAt(HomePath) == Some(Route("/", "Home", false))
  {
  }

  /** Route names are pairwise distinct. */
  lemma RouteNamesDistinct()
    ensures forall i, j :: 0 <= i < j < |Routes| ==> Routes[i].name != Routes[j].name
  {
  }

  /** Every route can be reached in some session: a protected one once
      logged in, any other one when logged out. */
  lemma EveryRouteReachable(i: nat)
    requires i < |Routes|
    ensures Guard(TargetOf(Routes[i]), if Routes[i].requiresAuth then Some(AuthData(Some("t"))) else None)
            == Proceed
  {
  }
}
