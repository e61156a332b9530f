/** The route table (src/App.tsx): five static paths, four of them wrapped in the route
    guard. Paths are matched exactly; the router library's case-insensitive and
    trailing-slash matching is not modelled. */
module AppRoutes {
  import opened Base
  import opened Types
  import ProtectedLayout

  datatype Page = AuthPage | DashboardPage | WorkflowsPage | AnalyticsPage | SettingsPage

  /** A route's element: a page on its own, or a page inside the guard. */
  datatype Element = Bare(page: Page) | Guarded(page: Page)

  datatype Route = Route(path: string, element: Element)

  const Routes: seq<Route> := [
    Route("/auth", Bare(AuthPage)),
    Route("/", Guarded(DashboardPage)),
    Route("/workflows", Guarded(WorkflowsPage)),
    Route("/analytics", Guarded(AnalyticsPage)),
    Route("/settings", Guarded(SettingsPage))
  ]

  const ProtectedPaths: set<string> := {"/", "/workflows", "/analytics", "/settings"}

  /** The element of the first route whose path is `path`, or none when no route has it. */
  function Lookup(routes: seq<Route>, path: string): (r: Option<Element>)
    ensures r.None? <==> forall i :: 0 <= i < |routes| ==> routes[i].path != path
    ensures r.Some? ==> exists i :: && 0 <= i < |routes| && routes[i].path == path && routes[i].element == r.value
                                    && forall j :: 0 <= j < i ==> routes[j].path != path
  {
    if routes == [] then None
    else if routes[0].path == path then Some(routes[0].element)
    else
      var rest := Lookup(routes[1..], path);
      assert forall i :: 1 <= i < |routes| ==> routes[i] == routes[1..][i - 1];
      rest
  }

  /** The element the application renders for `path`, looked up in the declared routes:
      `/auth` renders the credential page without the guard, each protected path renders its
      own page inside the guard, and nothing else matches (there is no wildcard route). */
  function Resolve(path: string): (r: Option<Element>)
    ensures path == "/auth" ==> r == Some(Bare(AuthPage))
    ensures path == "/" ==> r == Some(Guarded(DashboardPage))
    ensures path == "/workflows" ==> r == Some(Guarded(WorkflowsPage))
    ensures path == "/analytics" ==> r == Some(Guarded(AnalyticsPage))
    ensures path == "/settings" ==> r == Some(Guarded(SettingsPage))
    ensures r.Some? <==> path == "/auth" || path in ProtectedPaths
    ensures r.Some? && r.value.Guarded? <==> path in ProtectedPaths
  {
    assert Routes[0].path == "/auth" && Routes[1].path == "/" && Routes[2].path == "/workflows";
    assert Routes[3].path == "/analytics" && Routes[4].path == "/settings";
    var r := Lookup(Routes, path);
    assert r.Some? ==> path == "/auth" || path in ProtectedPaths by {
      if r.Some? {
        var i :| 0 <= i < |Routes| && Routes[i].path == path && Routes[i].element == r.value;
        assert i == 0 || i == 1 || i == 2 || i == 3 || i == 4;
      }
    }
    r
  }

  /** Distinct protected paths render distinct pages. */
  lemma GuardedPagesDistinct(p: string, q: string)
    requires p in ProtectedPaths && q in ProtectedPaths && p != q
    ensures Resolve(p).value.page != Resolve(q).value.page
  {
  }

  /** What the screen shows for `path`: the page, when one is rendered at all. A guarded page
      is rendered only when the guard decides for its content. */
  function Shown(path: string, user: Option<User>, loading: bool): (r: Option<Page>)
    ensures r.Some? ==> Resolve(path).Some? && r.value == Resolve(path).value.page
    ensures r.Some? && path in ProtectedPaths ==> user.Some? && !loading
    ensures path in ProtectedPaths ==> (r.Some? <==> ProtectedLayout.Decide(user, loading) == ProtectedLayout.Chrome)
    ensures path == "/auth" ==> r == Some(AuthPage)
    ensures r.None? <==> Resolve(path).None? || (path in ProtectedPaths && ProtectedLayout.Decide(user, loading) != ProtectedLayout.Chrome)
  {
    match Resolve(path)
    case None => None
    case Some(Bare(p)) => Some(p)
    case Some(Guarded(p)) =>
      if ProtectedLayout.Decide(user, loading) == ProtectedLayout.Chrome then Some(p) else None
  }
}
