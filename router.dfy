/** The route table and the `beforeEach` navigation guard. */
module Router {
  import opened Wrappers
  import opened Json
  import opened AuthStore

  /** A route's `meta`; a route without `requiresAuth` has None. */
  datatype RouteMeta = RouteMeta(title: string, requiresAuth: Option<bool>)

  datatype RouteRecord = RouteRecord(path: string, name: string, meta: RouteMeta)

  const LoginRoute: string := "login"
  const DashboardRoute: string := "dashboard"
  const TitleSuffix: string := " | Money Tracker"

  const Routes: seq<RouteRecord> := [
    RouteRecord("/dashboard", "dashboard", RouteMeta("Dashboard", Some(true))),
    RouteRecord("/dashboard/accounts", "accounts", RouteMeta("Accounts", Some(true))),
    RouteRecord("/dashboard/settings", "settings", RouteMeta("Settings", Some(true))),
    RouteRecord("/auth/login", "login", RouteMeta("Login", Some(false))),
    RouteRecord("/:catchAll(.*)", "NotFound", RouteMeta("404 Not Found", None))
  ]

  /** `to.meta.requiresAuth` is truthy; a missing flag is falsy. */
  predicate RequiresAuth(meta: RouteMeta) {
    meta.requiresAuth == Some(true)
  }

  /** The argument of the guard's one `next` call: `next()` or
      `next({ name })`. */
  datatype Next = Proceed | Redirect(name: string)

  /** The guard's decision for a target route and the store's flag. */
  function Decide(meta: RouteMeta, isAuthenticated: bool): (n: Next)
    ensures n == Redirect(LoginRoute) <==> RequiresAuth(meta) && !isAuthenticated
    ensures n == Redirect(DashboardRoute) <==> !RequiresAuth(meta) && isAuthenticated
    ensures n == Proceed <==> (RequiresAuth(meta) <==> isAuthenticated)
  {
    if RequiresAuth(meta) && !isAuthenticated then
      Redirect(LoginRoute)
    else if !RequiresAuth(meta) && isAuthenticated then
      Redirect(DashboardRoute)
    else
      Proceed
  }

  /** Resolving a route by name, as `next({ name })` does. */
  function FindRoute(routes: seq<RouteRecord>, name: string): (r: Option<RouteRecord>)
    ensures r.Some? ==> r.value in routes && r.value.name == name
    ensures r.None? ==> forall route :: route in routes ==> route.name != name
    decreases |routes|
  {
    if routes == [] then None
    else if routes[0].name == name then Some(routes[0])
    else FindRoute(routes[1..], name)
  }

  /** The catch-all route declares no `requiresAuth`, so it is public: an
      authenticated user is sent to the dashboard, anyone else proceeds. */
  lemma CatchAllIsPublic()
    ensures FindRoute(Routes, "NotFound").Some?
    ensures var notFound := FindRoute(Routes, "NotFound").value;
            notFound.meta.requiresAuth.None?
            && Decide(notFound.meta, true) == Redirect(DashboardRoute)
            && Decide(notFound.meta, false) == Proceed
  {
  }

  /** Exactly the three dashboard routes are protected. */
  lemma ProtectedRoutes()
    ensures forall route :: route in Routes ==>
              (RequiresAuth(route.meta) <==> route.name in {"dashboard", "accounts", "settings"})
  {
  }

  /** No redirect loop: a redirect names a route of the table, and the guard
      lets the user through to it on its next run. */
  lemma RedirectSettles(meta: RouteMeta, isAuthenticated: bool)
    ensures Decide(meta, isAuthenticated).Redirect? ==>
              var target := FindRoute(Routes, Decide(meta, isAuthenticated).name);
              target.Some? && Decide(target.value.meta, isAuthenticated) == Proceed
  {
  }

  /** `document`, reduced to its title. */
  class Document {
    var title: string

    constructor (title: string)
      ensures this.title == title
    {
      this.title := title;
    }
  }

  /** The guard's `next` callback, recording the arguments it is called with. */
  class NextCallback {
    var calls: seq<Next>

    constructor ()
      ensures calls == []
    {
      calls := [];
    }

    method Call(n: Next)
      modifies this
      ensures calls == old(calls) + [n]
    {
      calls := calls + [n];
    }
  }

  /** `router.beforeEach`: sets the title, calls `next` exactly once with the
      decision, and leaves the auth store and storage alone. */
  method BeforeEach(to: RouteRecord, store: Store, document: Document, next: NextCallback)
    modifies document, next
    ensures document.title == to.meta.title + TitleSuffix
    ensures next.calls == old(next.calls) + [Decide(to.meta, Truthy(store.isAuthenticated))]
    ensures store.Current() == old(store.Current())
  {
    var isAuthenticated := Truthy(store.isAuthenticated);

    document.title := to.meta.title + TitleSuffix;

    if to.meta.requiresAuth == Some(true) && !isAuthenticated {
      next.Call(Redirect(LoginRoute));
    } else if to.meta.requiresAuth != Some(true) && isAuthenticated {
      next.Call(Redirect(DashboardRoute));
    } else {
      next.Call(Proceed);
    }
  }
}
