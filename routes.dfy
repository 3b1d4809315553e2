/**
 * The route table (src/routes/index.tsx). The nested `<Route>` elements are flattened into one
 * entry per path carrying its chain of `ProtectedRoute` guards, outermost first; the layout route
 * (`AdminLayout`) always renders its outlet and so adds nothing to the chain. Unmatched paths
 * fall to the catch-all `*`. `Resolve` follows `<Navigate>` redirects to the page finally shown.
 */
module Routes {
  import opened Wrappers
  import opened Users
  import opened ProtectedRoute

  datatype Page = LoginPage | RegisterPage | DashboardPage | ProjectsPage | ProfilePage | UsersPage

  datatype Element = Show(page: Page) | Navigate(to: string)

  /** One leaf route: its path, the allow-lists of the guards around it, and its element. */
  datatype Route = Route(path: string, guards: seq<Option<seq<Role>>>, element: Element)

  const AppRoutes: seq<Route> := [
    Route("/login", [], Show(LoginPage)),
    Route("/register", [], Show(RegisterPage)),
    Route("/dashboard", [None], Show(DashboardPage)),
    Route("/projects", [None], Show(ProjectsPage)),
    Route("/profile", [None], Show(ProfilePage)),
    Route("/users", [None, Some([ADMIN])], Show(UsersPage)),
    Route("/", [None], Navigate("/dashboard"))
  ]

  const CatchAll: Route := Route("*", [], Navigate("/dashboard"))

  /** The first entry of `routes` for `path`; None sends the path to the catch-all. */
  function Match(routes: seq<Route>, path: string): (r: Option<Route>)
    ensures r.Some? ==> r.value in routes && r.value.path == path
  {
    if routes == [] then None
    else if routes[0].path == path then Some(routes[0])
    else Match(routes[1..], path)
  }

  /** Nothing matches exactly when no entry has the path. */
  lemma {:induction false} MatchNone(routes: seq<Route>, path: string)
    ensures Match(routes, path).None? <==> forall i :: 0 <= i < |routes| ==> routes[i].path != path
  {
    if routes != [] && routes[0].path != path {
      MatchNone(routes[1..], path);
      assert forall i :: 1 <= i < |routes| ==> routes[i] == routes[1..][i - 1];
    }
  }

  /** The entry at `i` is the one matched when no earlier entry has the same path. */
  lemma {:induction false} MatchAt(routes: seq<Route>, path: string, i: nat)
    requires i < |routes| && routes[i].path == path
    requires forall j :: 0 <= j < i ==> routes[j].path != path
    ensures Match(routes, path) == Some(routes[i])
  {
    if i > 0 {
      MatchAt(routes[1..], path, i - 1);
    }
  }

  /** The route that serves `path`. */
  function RouteFor(path: string): (r: Route)
    ensures r in AppRoutes || r == CatchAll
  {
    match Match(AppRoutes, path)
    case Some(r) => r
    case None => CatchAll
  }

  /** The guards run outermost first; the first that does not render its outlet decides. */
  function RunGuards(guards: seq<Option<seq<Role>>>, user: Option<User>): Decision
  {
    if guards == [] then RenderOutlet
    else if Decide(user, guards[0]) != RenderOutlet then Decide(user, guards[0])
    else RunGuards(guards[1..], user)
  }

  /** Nested guards render the page exactly when every one of them lets the user through. */
  lemma {:induction false} RunGuardsAll(guards: seq<Option<seq<Role>>>, user: Option<User>)
    ensures RunGuards(guards, user) == RenderOutlet <==>
              forall i :: 0 <= i < |guards| ==> Decide(user, guards[i]) == RenderOutlet
  {
    if guards != [] && Decide(user, guards[0]) == RenderOutlet {
      RunGuardsAll(guards[1..], user);
      assert forall i :: 1 <= i < |guards| ==> guards[i] == guards[1..][i - 1];
    }
  }

  /** The pages mounted inside the outer guard. */
  const Protected: set<Page> := {DashboardPage, ProjectsPage, ProfilePage, UsersPage}

  datatype Outcome = Rendered(page: Page) | Redirect(to: string)

  /** Entering `route`: its guards decide first, then its element renders or redirects. */
  function Enter(route: Route, user: Option<User>): Outcome
  {
    match RunGuards(route.guards, user)
    case RedirectToLogin => Redirect("/login")
    case RedirectToDashboard => Redirect("/dashboard")
    case RenderOutlet =>
      match route.element
      case Show(p) => Rendered(p)
      case Navigate(to) => Redirect(to)
  }

  /** One navigation to `path`: the page it renders or where it redirects. */
  function Step(path: string, user: Option<User>): Outcome
  {
    Enter(RouteFor(path), user)
  }

  /** How many redirects a path can still take: `/login` none, `/dashboard` one, others two. */
  function Rank(path: string): nat
  {
    if path == "/login" then 0 else if path == "/dashboard" then 1 else 2
  }

  /** Every `<Navigate>` in the table, and the catch-all, points at `/dashboard`. */
  lemma NavigatesToDashboard(path: string)
    ensures RouteFor(path).element.Navigate? ==> RouteFor(path).element.to == "/dashboard"
  {
    var route := RouteFor(path);
    if route != CatchAll {
      var i :| 0 <= i < |AppRoutes| && AppRoutes[i] == route;
    }
  }

  /** Whatever decides a redirect, its target is `/login`, `/dashboard` or a `<Navigate>` target. */
  lemma StepTargets(path: string, user: Option<User>)
    ensures Step(path, user).Redirect? ==> Step(path, user).to in {"/login", "/dashboard"}
  {
    NavigatesToDashboard(path);
  }

  lemma StepDescends(path: string, user: Option<User>)
    ensures Step(path, user).Redirect? ==> Rank(Step(path, user).to) < Rank(path)
  {
    if path == "/login" {
      StepPublic(user);
    } else if path == "/dashboard" {
      StepMember(user, 2);
    } else {
      StepTargets(path, user);
    }
  }

  datatype Resolution = Resolution(page: Page, redirects: nat)

  /** Follows redirects from `path` to the page that is finally rendered. */
  function Resolve(path: string, user: Option<User>): (r: Resolution)
    ensures r.redirects <= Rank(path) <= 2
    decreases Rank(path)
  {
    StepDescends(path, user);
    match Step(path, user)
    case Rendered(p) => Resolution(p, 0)
    case Redirect(to) =>
      var r := Resolve(to, user);
      Resolution(r.page, r.redirects + 1)
  }

  /** A navigation that renders at once resolves with no redirect. */
  lemma ResolveRendered(path: string, user: Option<User>, page: Page)
    requires Step(path, user) == Rendered(page)
    ensures Resolve(path, user) == Resolution(page, 0)
  {
  }

  /** A navigation that redirects resolves one redirect further than its target. */
  lemma ResolveRedirect(path: string, user: Option<User>, to: string)
    requires Step(path, user) == Redirect(to)
    ensures Resolve(path, user) == Resolution(Resolve(to, user).page, Resolve(to, user).redirects + 1)
  {
  }

  /** Each entry of the table is the one its own path selects. */
  lemma TableEntry(i: nat)
    requires i < |AppRoutes|
    ensures RouteFor(AppRoutes[i].path) == AppRoutes[i]
  {
    if i == 0 { MatchAt(AppRoutes, "/login", 0); }
    else if i == 1 { MatchAt(AppRoutes, "/register", 1); }
    else if i == 2 { MatchAt(AppRoutes, "/dashboard", 2); }
    else if i == 3 { MatchAt(AppRoutes, "/projects", 3); }
    else if i == 4 { MatchAt(AppRoutes, "/profile", 4); }
    else if i == 5 { MatchAt(AppRoutes, "/users", 5); }
    else { MatchAt(AppRoutes, "/", 6); }
  }

  /** The two guard chains of the table. */
  lemma GuardChains(user: Option<User>)
    ensures RunGuards([], user) == RenderOutlet
    ensures RunGuards([None], user) == if user.None? then RedirectToLogin else RenderOutlet
    ensures RunGuards([None, Some([ADMIN])], user) ==
              if user.None? then RedirectToLogin
              else if user.value.role == ADMIN then RenderOutlet
              else RedirectToDashboard
  {
    assert [None, Some([ADMIN])][1..] == [Some([ADMIN])];
    assert [Some([ADMIN])][1..] == [];
  }

  /** The unguarded entries render for anyone. */
  lemma StepPublic(user: Option<User>)
    ensures Step("/login", user) == Rendered(LoginPage)
    ensures Step("/register", user) == Rendered(RegisterPage)
  {
    TableEntry(0);
    TableEntry(1);
    GuardChains(user);
  }

  /** A route behind the outer guard alone that shows a page. */
  lemma EnterMember(route: Route, user: Option<User>)
    requires route.guards == [None] && route.element.Show?
    ensures Enter(route, user) == if user.None? then Redirect("/login") else Rendered(route.element.page)
  {
    GuardChains(user);
  }

  /** An entry behind the outer guard alone. */
  lemma StepMember(user: Option<User>, i: nat)
    requires 2 <= i <= 4
    ensures Step(AppRoutes[i].path, user) ==
              if user.None? then Redirect("/login") else Rendered(AppRoutes[i].element.page)
  {
    if i == 2 {
      TableEntry(2);
      EnterMember(AppRoutes[2], user);
    } else if i == 3 {
      TableEntry(3);
      EnterMember(AppRoutes[3], user);
    } else {
      TableEntry(4);
      EnterMember(AppRoutes[4], user);
    }
  }

  lemma StepUsers(user: Option<User>)
    ensures Step("/users", user) ==
              if user.None? then Redirect("/login")
              else if user.value.role == ADMIN then Rendered(UsersPage)
              else Redirect("/dashboard")
  {
    TableEntry(5);
    GuardChains(user);
  }

  lemma StepRoot(user: Option<User>)
    ensures Step("/", user) == if user.None? then Redirect("/login") else Redirect("/dashboard")
  {
    TableEntry(6);
    GuardChains(user);
  }

  /** `/login` and `/register` have no guard: they render for anyone. */
  lemma PublicPages(user: Option<User>)
    ensures Resolve("/login", user) == Resolution(LoginPage, 0)
    ensures Resolve("/register", user) == Resolution(RegisterPage, 0)
  {
    StepPublic(user);
    ResolveRendered("/login", user, LoginPage);
    ResolveRendered("/register", user, RegisterPage);
  }

  /** A path behind the outer guard alone: the login page when anonymous, its page otherwise. */
  lemma GuardedResolve(path: string, user: Option<User>, page: Page)
    requires Step(path, user) == if user.None? then Redirect("/login") else Rendered(page)
    ensures Resolve(path, user) ==
              if user.None? then Resolution(LoginPage, 1) else Resolution(page, 0)
  {
    if user.None? {
      PublicPages(user);
      ResolveRedirect(path, user, "/login");
    } else {
      ResolveRendered(path, user, page);
    }
  }

  /** The pages behind the outer guard alone: the login page when anonymous, the page otherwise. */
  lemma MemberPages(user: Option<User>)
    ensures Resolve("/dashboard", user) ==
              if user.None? then Resolution(LoginPage, 1) else Resolution(DashboardPage, 0)
    ensures Resolve("/projects", user) ==
              if user.None? then Resolution(LoginPage, 1) else Resolution(ProjectsPage, 0)
    ensures Resolve("/profile", user) ==
              if user.None? then Resolution(LoginPage, 1) else Resolution(ProfilePage, 0)
  {
    StepMember(user, 2);
    GuardedResolve("/dashboard", user, DashboardPage);
    StepMember(user, 3);
    GuardedResolve("/projects", user, ProjectsPage);
    StepMember(user, 4);
    GuardedResolve("/profile", user, ProfilePage);
  }

  /** `/users`: the outer guard first sends the anonymous to log in; then only ADMIN passes. */
  lemma UsersPageAccess(user: Option<User>)
    ensures Resolve("/users", user) ==
              if user.None? then Resolution(LoginPage, 1)
              else if user.value.role == ADMIN then Resolution(UsersPage, 0)
              else Resolution(DashboardPage, 1)
  {
    StepUsers(user);
    if user.None? {
      PublicPages(user);
      ResolveRedirect("/users", user, "/login");
    } else if user.value.role != ADMIN {
      MemberPages(user);
      ResolveRedirect("/users", user, "/dashboard");
    } else {
      ResolveRendered("/users", user, UsersPage);
    }
  }

  /** `/` goes to the dashboard, which in turn asks the anonymous to log in. */
  lemma RootRedirect(user: Option<User>)
    ensures Resolve("/", user) ==
              if user.None? then Resolution(LoginPage, 1) else Resolution(DashboardPage, 1)
  {
    StepRoot(user);
    if user.None? {
      PublicPages(user);
      ResolveRedirect("/", user, "/login");
    } else {
      MemberPages(user);
      ResolveRedirect("/", user, "/dashboard");
    }
  }

  /** A path outside the table falls to the catch-all, which redirects to the dashboard. */
  lemma StepUnmatched(path: string, user: Option<User>)
    requires forall i :: 0 <= i < |AppRoutes| ==> AppRoutes[i].path != path
    ensures Step(path, user) == Redirect("/dashboard")
  {
    MatchNone(AppRoutes, path);
    assert RouteFor(path) == CatchAll;
    GuardChains(user);
  }

  /** A path that redirects to the dashboard shows it, or the login page when anonymous. */
  lemma DashboardRedirectResolves(path: string, user: Option<User>)
    requires Step(path, user) == Redirect("/dashboard")
    ensures Resolve(path, user) ==
              if user.None? then Resolution(LoginPage, 2) else Resolution(DashboardPage, 1)
  {
    MemberPages(user);
    ResolveRedirect(path, user, "/dashboard");
  }

  /** Any path outside the table goes to the dashboard, and on to the login page when anonymous. */
  lemma UnmatchedPath(path: string, user: Option<User>)
    requires forall i :: 0 <= i < |AppRoutes| ==> AppRoutes[i].path != path
    ensures Resolve(path, user) ==
              if user.None? then Resolution(LoginPage, 2) else Resolution(DashboardPage, 1)
  {
    StepUnmatched(path, user);
    DashboardRedirectResolves(path, user);
  }

  /** Entering a table entry renders a protected page only with the guards' consent. */
  lemma EnterWithConsent(i: nat, user: Option<User>)
    requires i < |AppRoutes|
    ensures Enter(AppRoutes[i], user).Rendered? ==> (Enter(AppRoutes[i], user).page in Protected ==> user.Some?)
    ensures Enter(AppRoutes[i], user) == Rendered(UsersPage) ==> user.Some? && user.value.role == ADMIN
  {
    GuardChains(user);
    if i == 0 || i == 1 {
      assert AppRoutes[i].guards == [];
    } else if i == 5 {
      assert AppRoutes[i].guards == [None, Some([ADMIN])];
    } else {
      assert AppRoutes[i].guards == [None];
    }
  }

  /** The same for any route the router can select, the catch-all included. */
  lemma ConsentOf(route: Route, user: Option<User>)
    requires route in AppRoutes || route == CatchAll
    ensures Enter(route, user).Rendered? ==> (Enter(route, user).page in Protected ==> user.Some?)
    ensures Enter(route, user) == Rendered(UsersPage) ==> user.Some? && user.value.role == ADMIN
  {
    if route == CatchAll {
      GuardChains(user);
    } else {
      var i :| 0 <= i < |AppRoutes| && AppRoutes[i] == route;
      EnterWithConsent(i, user);
    }
  }

  /** A protected page is rendered only when every guard around it lets the user through. */
  lemma RenderedOnlyWithConsent(path: string, user: Option<User>)
    ensures Step(path, user).Rendered? ==> (Step(path, user).page in Protected ==> user.Some?)
    ensures Step(path, user) == Rendered(UsersPage) ==> user.Some? && user.value.role == ADMIN
  {
    ConsentOf(RouteFor(path), user);
  }

  /** Whatever the path, nobody reaches a protected page without the guards' consent. */
  lemma NoUnauthorisedPage(path: string, user: Option<User>)
    ensures Resolve(path, user).page in Protected ==> user.Some?
    ensures Resolve(path, user).page == UsersPage ==> user.Some? && user.value.role == ADMIN
    decreases Rank(path)
  {
    StepDescends(path, user);
    RenderedOnlyWithConsent(path, user);
    if Step(path, user).Redirect? {
      NoUnauthorisedPage(Step(path, user).to, user);
    }
  }
}
