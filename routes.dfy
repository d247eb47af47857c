/** The route table of `App` in App.tsx and how a requested path resolves.

    The table holds exact static paths; a `*` route catches every path no
    entry declares and redirects home. Route matching is modelled as exact
    string equality on the requested path, first declared entry first. */
module Routes {

  import opened Wrappers
  import opened Gate

  /** The page components the table can show. */
  datatype Page =
    | Home | Login | ProjectInfo | TechnicalInfo | Contact | SearchPage | WeatherPage
    | QueryPage | CommunityForum | Onboarding | Profile | Store | Checkout | Dashboard

  /** The `element` of a route: a bare page, a page wrapped in
      `ProtectedRoute` with its optional `allowedRoles`, or a `<Navigate>`. */
  datatype Element =
    | Show(page: Page)
    | Guarded(allowedRoles: Option<seq<string>>, page: Page)
    | NavigateTo(to: string, replace: bool)

  datatype Route = Route(path: string, element: Element)

  /** The static routes, in declaration order. */
  const Table: seq<Route> := [
    Route("/", Show(Home)),
    Route("/login", Show(Login)),
    Route("/about", Guarded(None, ProjectInfo)),
    Route("/technical", Guarded(None, TechnicalInfo)),
    Route("/contact", Guarded(None, Contact)),
    Route("/search", Guarded(None, SearchPage)),
    Route("/weather", Guarded(None, WeatherPage)),
    Route("/query", Guarded(Some(["Farmer"]), QueryPage)),
    Route("/community", Guarded(Some(["Farmer"]), CommunityForum)),
    Route("/onboarding", Guarded(Some(["Farmer"]), Onboarding)),
    Route("/profile", Guarded(Some(["Farmer"]), Profile)),
    Route("/store", Guarded(Some(["Farmer"]), Store)),
    Route("/checkout", Guarded(Some(["Farmer"]), Checkout)),
    Route("/dashboard", Guarded(Some(["Officer"]), Dashboard))
  ]

  /** The element of the `*` route. */
  const Fallback: Element := NavigateTo(HomePath, true)

  /** No two routes declare the same path. */
  predicate DistinctPaths(routes: seq<Route>)
  {
    forall i, j :: 0 <= i < j < |routes| ==> routes[i].path != routes[j].path
  }

  /** The element of the first route whose path equals `path`, if any. */
  function Lookup(routes: seq<Route>, path: string): (r: Option<Element>)
    ensures r.None? <==> forall i :: 0 <= i < |routes| ==> routes[i].path != path
    ensures r.Some? ==> exists i :: 0 <= i < |routes| && routes[i] == Route(path, r.value)
                                     && forall j :: 0 <= j < i ==> routes[j].path != path
  {
    if routes == [] then None
    else if routes[0].path == path then Some(routes[0].element)
    else
      var r := Lookup(routes[1..], path);
      assert r.Some? ==> exists i :: 0 <= i < |routes| && routes[i] == Route(path, r.value)
                                     && forall j :: 0 <= j < i ==> routes[j].path != path by {
        if r.Some? {
          var k :| 0 <= k < |routes[1..]| && routes[1..][k] == Route(path, r.value)
                   && forall j :: 0 <= j < k ==> routes[1..][j].path != path;
          assert routes[k + 1] == Route(path, r.value);
          assert forall j :: 0 <= j < k + 1 ==> routes[j].path != path by {
            forall j | 0 <= j < k + 1 ensures routes[j].path != path {
              if j > 0 { assert routes[j] == routes[1..][j - 1]; }
            }
          }
        }
      }
      r
  }

  /** What an element yields for the stored role. */
  function Evaluate(stored: Option<string>, e: Element): (r: Outcome<Page>)
  {
    match e
    case Show(p) => Render(p)
    case Guarded(allowedRoles, p) => ProtectedRoute(stored, allowedRoles, p)
    case NavigateTo(to, replace) => Redirect(to, replace)
  }

  /** The outcome of navigating to `path` with role `stored`: the declared
      route's element, or the `*` route's redirect for an undeclared path.
      A page is shown only at a path that declares it; an undeclared path
      goes home without the gate; every redirect replaces the history
      entry and targets the login page or home. */
  function Resolve(stored: Option<string>, path: string): (r: Outcome<Page>)
    ensures r.Render? ==> exists i :: 0 <= i < |Table| && Table[i].path == path
                                      && !Table[i].element.NavigateTo? && Table[i].element.page == r.page
    ensures (forall i :: 0 <= i < |Table| ==> Table[i].path != path) ==> r == Redirect(HomePath, true)
    ensures r.Redirect? ==> r.replace && (r.to == LoginPath || r.to == HomePath)
  {
    match Lookup(Table, path)
    case Some(e) =>
      TableRoutesShowPages();
      Evaluate(stored, e)
    case None => Evaluate(stored, Fallback)
  }

  /** Every declared route shows a page, bare or behind the gate; only the
      `*` route redirects by itself. */
  lemma TableRoutesShowPages()
    ensures forall i :: 0 <= i < |Table| ==> !Table[i].element.NavigateTo?
  {
  }

  /** The table declares each path once, so a path selects one route. */
  lemma TablePathsDistinct()
    ensures DistinctPaths(Table)
  {
  }

  /** In a table without repeated paths, looking up a declared path finds
      that route's element. */
  lemma LookupDeclared(routes: seq<Route>, i: int)
    requires DistinctPaths(routes)
    requires 0 <= i < |routes|
    ensures Lookup(routes, routes[i].path) == Some(routes[i].element)
  {
  }

  /** Navigating to a declared path evaluates that route's element. */
  lemma ResolveDeclared(stored: Option<string>, i: int)
    requires 0 <= i < |Table|
    ensures Resolve(stored, Table[i].path) == Evaluate(stored, Table[i].element)
  {
    TablePathsDistinct();
    LookupDeclared(Table, i);
  }

  /** Who may see a page, as the application's navigation intends it. */
  datatype Access = Public(page: Page) | AnyRole(page: Page) | OnlyRole(role: string, page: Page)

  /** The intended access of every path the application serves. */
  const Policy: map<string, Access> := map[
    "/" := Public(Home),
    "/login" := Public(Login),
    "/about" := AnyRole(ProjectInfo),
    "/technical" := AnyRole(TechnicalInfo),
    "/contact" := AnyRole(Contact),
    "/search" := AnyRole(SearchPage),
    "/weather" := AnyRole(WeatherPage),
    "/query" := OnlyRole("Farmer", QueryPage),
    "/community" := OnlyRole("Farmer", CommunityForum),
    "/onboarding" := OnlyRole("Farmer", Onboarding),
    "/profile" := OnlyRole("Farmer", Profile),
    "/store" := OnlyRole("Farmer", Store),
    "/checkout" := OnlyRole("Farmer", Checkout),
    "/dashboard" := OnlyRole("Officer", Dashboard)
  ]

  /** The outcome the policy calls for: unknown paths go home; a page that
      needs a role sends a visitor without one to log in; a page for one
      role sends every other role home. */
  function Expected(stored: Option<string>, path: string): (r: Outcome<Page>)
  {
    if path !in Policy then Redirect(HomePath, true)
    else match Policy[path]
      case Public(p) => Render(p)
      case AnyRole(p) => if Truthy(stored) then Render(p) else Redirect(LoginPath, true)
      case OnlyRole(role, p) =>
        if !Truthy(stored) then Redirect(LoginPath, true)
        else if stored.value == role then Render(p)
        else Redirect(HomePath, true)
  }

  /** Each declared route behaves as the policy says for its path. */
  lemma DeclaredFollowsPolicy(stored: Option<string>, i: int)
    requires 0 <= i < |Table|
    ensures Evaluate(stored, Table[i].element) == Expected(stored, Table[i].path)
  {
  }

  /** The policy covers exactly the declared paths. */
  lemma PolicyCoversTable(path: string)
    ensures path in Policy <==> exists i :: 0 <= i < |Table| && Table[i].path == path
  {
    if path == "/" { assert Table[0].path == path; }
    else if path == "/login" { assert Table[1].path == path; }
    else if path == "/about" { assert Table[2].path == path; }
    else if path == "/technical" { assert Table[3].path == path; }
    else if path == "/contact" { assert Table[4].path == path; }
    else if path == "/search" { assert Table[5].path == path; }
    else if path == "/weather" { assert Table[6].path == path; }
    else if path == "/query" { assert Table[7].path == path; }
    else if path == "/community" { assert Table[8].path == path; }
    else if path == "/onboarding" { assert Table[9].path == path; }
    else if path == "/profile" { assert Table[10].path == path; }
    else if path == "/store" { assert Table[11].path == path; }
    else if path == "/checkout" { assert Table[12].path == path; }
    else if path == "/dashboard" { assert Table[13].path == path; }
  }

  /** The route table together with the gate implements the policy, for
      every stored role and every requested path. */
  lemma ResolveFollowsPolicy(stored: Option<string>, path: string)
    ensures Resolve(stored, path) == Expected(stored, path)
  {
    PolicyCoversTable(path);
    if i :| 0 <= i < |Table| && Table[i].path == path {
      ResolveDeclared(stored, i);
      DeclaredFollowsPolicy(stored, i);
    }
  }
}
