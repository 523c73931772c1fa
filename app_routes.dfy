/**
 * The application's route table: the landing page and the five login pages
 * are wrapped in PublicRoute, the five panels in ProtectedRoutes with one
 * required role each. Navigation through the table never loops.
 */
module AppRoutes {
  import opened Wrappers
  import opened Storage
  import opened Router
  import ProtectedRoutes
  import PublicRoute

  datatype Page =
    | Home | EmployeeLogin | HrLogin | HrManagerLogin | ManagerLogin | PartnerLogin
    | EmployeeLeave | HrManagerLeave | ManagerPanel | HrPanel | PartnerPanel

  /** The wrapper around a route's element; a protected route may omit its role. */
  datatype Wrapper = Public | Protected(requiredRole: Option<Role>)

  datatype Route = Route(path: Path, wrapper: Wrapper, page: Page)

  /** The routes nested under "/", with their full paths, in declaration order. */
  const Table: seq<Route> := [
    Route("/", Public, Home),
    Route("/employee-login", Public, EmployeeLogin),
    Route("/hr-login", Public, HrLogin),
    Route("/hr-manager-login", Public, HrManagerLogin),
    Route("/manager-login", Public, ManagerLogin),
    Route("/partner-login", Public, PartnerLogin),
    Route("/employee-leave", Protected(Some(User)), EmployeeLeave),
    Route("/hr-manager-leave", Protected(Some(HrManager)), HrManagerLeave),
    Route("/manager-panel", Protected(Some(Manager)), ManagerPanel),
    Route("/hr-panel", Protected(Some(Hr)), HrPanel),
    Route("/partner-panel", Protected(Some(Partner)), PartnerPanel)
  ]

  /** The first route of `routes` whose path is `path`. */
  function LookupIn(routes: seq<Route>, path: Path): (r: Option<Route>)
    ensures r.Some? ==> r.value in routes && r.value.path == path
    ensures r.None? ==> forall i :: 0 <= i < |routes| ==> routes[i].path != path
  {
    if routes == [] then None
    else if routes[0].path == path then Some(routes[0])
    else LookupIn(routes[1..], path)
  }

  /** The route the router matches for `path`, if any. */
  function Lookup(path: Path): Option<Route> {
    LookupIn(Table, path)
  }

  /** What one navigation to a path produces. */
  datatype Outcome = Render(page: Page) | Redirect(to: Path) | NoMatch

  /** One navigation: the matched route's wrapper decides between its page and a redirect. */
  function Navigate(m: Slots, path: Path): (o: Outcome)
    ensures o == NoMatch <==> Lookup(path).None?
  {
    match Lookup(path)
    case None => NoMatch
    case Some(route) =>
      var e := match route.wrapper
        case Public => PublicRoute.Guard(m)
        case Protected(req) => ProtectedRoutes.Guard(m, req);
      match e
      case Children => Render(route.page)
      case Navigate(to) => Redirect(to)
  }

  /** Navigates to `path` and follows at most `hops` redirects. */
  function Follow(m: Slots, path: Path, hops: nat): Outcome
    decreases hops
  {
    var o := Navigate(m, path);
    if o.Redirect? && hops > 0 then Follow(m, o.to, hops - 1) else o
  }

  /** The panel page guarded by each role. */
  function PanelPage(r: Role): Page {
    match r
    case User => EmployeeLeave
    case HrManager => HrManagerLeave
    case Manager => ManagerPanel
    case Hr => HrPanel
    case Partner => PartnerPanel
  }

  /** The protected route of `role`, found by searching the table. */
  function PanelRoute(role: Role): (r: Option<Route>)
    ensures r.Some? ==> r.value in Table && r.value.wrapper == Protected(Some(role))
  {
    FindProtected(Table, role)
  }

  function FindProtected(routes: seq<Route>, role: Role): (r: Option<Route>)
    ensures r.Some? ==> r.value in routes && r.value.wrapper == Protected(Some(role))
    ensures r.None? ==> forall i :: 0 <= i < |routes| ==> routes[i].wrapper != Protected(Some(role))
  {
    if routes == [] then None
    else if routes[0].wrapper == Protected(Some(role)) then Some(routes[0])
    else FindProtected(routes[1..], role)
  }

  /** Every path occurs once in the table, so the lookup is unambiguous. */
  lemma PathsDistinct()
    ensures forall i, j :: 0 <= i < j < |Table| ==> Table[i].path != Table[j].path
  {
  }

  /** A route whose path no earlier route has is the one the lookup finds. */
  lemma {:induction false} LookupAt(routes: seq<Route>, k: nat)
    requires k < |routes|
    requires forall j :: 0 <= j < k ==> routes[j].path != routes[k].path
    ensures LookupIn(routes, routes[k].path) == Some(routes[k])
  {
    if k > 0 {
      assert routes[1..][k - 1] == routes[k];
      LookupAt(routes[1..], k - 1);
    }
  }

  /** A protected route whose role no earlier route requires is the one the search finds. */
  lemma {:induction false} FindProtectedAt(routes: seq<Route>, k: nat)
    requires k < |routes| && routes[k].wrapper.Protected? && routes[k].wrapper.requiredRole.Some?
    requires forall j :: 0 <= j < k ==> routes[j].wrapper != routes[k].wrapper
    ensures FindProtected(routes, routes[k].wrapper.requiredRole.value) == Some(routes[k])
  {
    if k > 0 {
      assert routes[1..][k - 1] == routes[k];
      FindProtectedAt(routes[1..], k - 1);
    }
  }

  /** The table index of each role's panel. */
  function PanelIndex(r: Role): (k: nat)
    ensures k < |Table|
  {
    match r
    case User => 6
    case HrManager => 7
    case Manager => 8
    case Hr => 9
    case Partner => 10
  }

  /** The table entry at each role's index is its panel, behind its own role. */
  lemma PanelEntry(role: Role)
    ensures Table[PanelIndex(role)] == Route(PublicRoute.Target(role), Protected(Some(role)), PanelPage(role))
  {
  }

  /** No route before a role's panel requires that role. */
  lemma PanelIsFirstOfRole(role: Role)
    ensures forall j :: 0 <= j < PanelIndex(role) ==> Table[j].wrapper != Protected(Some(role))
  {
  }

  /**
   * Each role protects exactly one route, and that route sits at the path
   * PublicRoute sends the role to.
   */
  lemma PanelOfRole(role: Role)
    ensures Lookup(PublicRoute.Target(role)) == Some(Route(PublicRoute.Target(role), Protected(Some(role)), PanelPage(role)))
    ensures PanelRoute(role) == Lookup(PublicRoute.Target(role))
  {
    var k := PanelIndex(role);
    PanelEntry(role);
    PathsDistinct();
    LookupAt(Table, k);
    PanelIsFirstOfRole(role);
    FindProtectedAt(Table, k);
  }

  /** A panel opens for exactly the visitors whose slot for its role is present; others go to "/". */
  lemma PanelAdmits(m: Slots, role: Role)
    ensures Present(m, role) ==> Navigate(m, PublicRoute.Target(role)) == Render(PanelPage(role))
    ensures !Present(m, role) ==> Navigate(m, PublicRoute.Target(role)) == Redirect("/")
  {
    var t := PublicRoute.Target(role);
    PanelOfRole(role);
    var route := Route(t, Protected(Some(role)), PanelPage(role));
    assert Lookup(t) == Some(route);
    var e := ProtectedRoutes.Guard(m, Some(role));
    assert Navigate(m, t) == match e case Children => Render(route.page) case Navigate(to) => Redirect(to);
  }

  /**
   * The shape of the table: the landing page and the five login pages are
   * public, every other route names its required role, and role to panel is a
   * bijection between the five roles and the five protected routes.
   */
  lemma TableShape()
    ensures forall i :: 0 <= i < 6 ==> Table[i].wrapper == Public
    ensures forall i :: 6 <= i < |Table| ==> Table[i].wrapper.Protected? && Table[i].wrapper.requiredRole.Some?
    ensures forall i :: 6 <= i < |Table| ==> PanelIndex(Table[i].wrapper.requiredRole.value) == i
  {
  }

  lemma RolePanelBijection()
    ensures forall i :: 0 <= i < |Table| && Table[i].wrapper.Protected? ==> Table[i].wrapper.requiredRole.Some?
    ensures forall r: Role :: PanelRoute(r).Some?
    ensures forall a: Role, b: Role :: PanelRoute(a) == PanelRoute(b) ==> a == b
    ensures forall i :: 0 <= i < |Table| && Table[i].wrapper.Protected? ==>
      PanelRoute(Table[i].wrapper.requiredRole.value) == Some(Table[i])
  {
    forall r: Role ensures PanelRoute(r).Some? && PanelRoute(r).value == Table[PanelIndex(r)] {
      PanelOfRole(r);
      PanelEntry(r);
    }
    forall i | 0 <= i < |Table| && Table[i].wrapper.Protected?
      ensures PanelRoute(Table[i].wrapper.requiredRole.value) == Some(Table[i])
    {
      TableShape();
    }
    TableShape();
  }

  /** The landing and login pages are shown exactly to visitors who hold no slot. */
  lemma PublicPagesOnlyWhenSignedOut(m: Slots, i: nat)
    requires i < 6
    ensures Navigate(m, Table[i].path) == Render(Table[i].page) <==> !AnyPresent(m)
  {
    PathsDistinct();
    LookupAt(Table, i);
    TableShape();
  }

  /**
   * A visitor holding some slot who opens a public page is redirected to the
   * panel of the first present role in PublicRoute's order, and that panel's
   * guard admits them.
   */
  lemma PublicRedirectIsAdmitted(m: Slots)
    requires AnyPresent(m)
    ensures var i := FirstPresent(m, PublicRoute.RedirectOrder);
      && i < |PublicRoute.RedirectOrder|
      && var r := PublicRoute.RedirectOrder[i];
      && var t := PublicRoute.Target(r);
      && PublicRoute.Guard(m) == Router.Navigate(t)
      && Lookup(t) == Some(Route(t, Protected(Some(r)), PanelPage(r)))
      && ProtectedRoutes.Guard(m, Some(r)) == Children
      && Navigate(m, t) == Render(PanelPage(r))
  {
    PublicRoute.RedirectFollowsOrder(m);
    var r := PublicRoute.RedirectOrder[FirstPresent(m, PublicRoute.RedirectOrder)];
    PanelOfRole(r);
  }

  /** "/" is the public landing page. */
  lemma RootIsHome()
    ensures Lookup("/") == Some(Route("/", Public, Home))
  {
    LookupAt(Table, 0);
  }

  /**
   * A visitor refused by a panel lands on "/", which shows Home when no slot
   * is present and otherwise redirects once, to a panel that admits them.
   */
  lemma DenialLandsOnRoot(m: Slots, role: Role)
    requires !Present(m, role)
    ensures Navigate(m, PublicRoute.Target(role)) == Redirect("/")
    ensures !AnyPresent(m) ==> Navigate(m, "/") == Render(Home)
    ensures AnyPresent(m) ==> Navigate(m, "/").Redirect? && Navigate(m, Navigate(m, "/").to).Render?
  {
    PanelOfRole(role);
    RootIsHome();
    if AnyPresent(m) {
      PublicRedirectIsAdmitted(m);
    }
  }

  /**
   * No redirect loop: from any path of the table, whatever the slots hold, at
   * most two redirects lead to a rendered page.
   */
  lemma NoRedirectLoop(m: Slots, path: Path)
    requires Lookup(path).Some?
    ensures Follow(m, path, 2).Render?
  {
    var route := Lookup(path).value;
    RolePanelBijection();
    match route.wrapper
    case Public =>
      if AnyPresent(m) {
        PublicRedirectIsAdmitted(m);
      }
    case Protected(req) =>
      var role := req.value;
      if !Present(m, role) {
        PanelOfRole(role);
        DenialLandsOnRoot(m, role);
      }
  }
}
