/**
 * The route table and its guards. A request path is its list of segments ("/traders/7/edit"
 * is ["traders", "7", "edit"]); a pattern segment is a literal or a `:param`. Among the routes
 * whose pattern matches, the first declared one is taken, and the dashboard group of routes
 * is declared only while signed in.
 */
module Routes {
  import opened Common
  import opened Entities

  datatype Element = Screen(name: string) | Redirect(to: string)

  /** `ProtectedRoute`: sign-in first, then the role, if a non-zero role is required. */
  function ProtectedRoute(isAuthenticated: bool, user: Option<User>, requiredRole: Option<int>): (r: Element)
    ensures !isAuthenticated ==> r == Redirect("/login")
    ensures isAuthenticated && requiredRole.Some? && requiredRole.value != 0 ==>
      (r == Redirect("/dashboard") <==> !(user.Some? && user.value.role == RoleNumber(requiredRole.value)))
    ensures isAuthenticated && (requiredRole.None? || requiredRole.value == 0) ==> r == Screen("children")
  {
    if !isAuthenticated then Redirect("/login")
    else if requiredRole.Some? && requiredRole.value != 0
            && !(user.Some? && user.value.role == RoleNumber(requiredRole.value)) then
      Redirect("/dashboard")
    else Screen("children")
  }

  /** A role given as text, such as the mock login's 'admin', never passes a numeric role check. */
  lemma TextRoleNeverPasses(u: User, required: int)
    requires u.role.RoleText? && required != 0
    ensures ProtectedRoute(true, Some(u), Some(required)) == Redirect("/dashboard")
  {
  }

  datatype Segment = Lit(text: string) | Param

  datatype Route = Route(pattern: seq<Segment>, element: Element)

  /** A literal matches itself; a parameter matches any non-empty segment. */
  predicate SegmentMatches(seg: Segment, part: string) {
    match seg
    case Lit(text) => text == part
    case Param => part != ""
  }

  predicate Matches(pattern: seq<Segment>, path: seq<string>)
    decreases |pattern|
  {
    if pattern == [] then path == []
    else path != [] && SegmentMatches(pattern[0], path[0]) && Matches(pattern[1..], path[1..])
  }

  function SignedInOr(isAuthenticated: bool, yes: string, no: string): string {
    if isAuthenticated then yes else no
  }

  /** The sign-in pages render only for guests; the reset page renders for everyone. */
  function PublicRoutes(isAuthenticated: bool): seq<Route> {
    [ Route([], Redirect(SignedInOr(isAuthenticated, "/dashboard", "/login"))),
      Route([Lit("login")], if isAuthenticated then Redirect("/dashboard") else Screen("LoginForm")),
      Route([Lit("register")], if isAuthenticated then Redirect("/dashboard") else Screen("RegisterForm")),
      Route([Lit("forgot-password")],
            if isAuthenticated then Redirect("/dashboard") else Screen("ForgotPasswordForm")),
      Route([Lit("reset-password"), Param], Screen("ResetPasswordForm")) ]
  }

  /** The dashboard group, declared only while signed in; specific patterns come first. */
  function DashboardRoutes(): seq<Route> {
    [ Route([Lit("dashboard")], Screen("Dashboard")),
      Route([Lit("customers")], Screen("CustomerList")),
      Route([Lit("customers"), Lit("add")], Screen("CustomerAdd")),
      Route([Lit("customers"), Lit("edit"), Param], Screen("CustomerEdit")),
      Route([Lit("customers"), Lit("view"), Param], Screen("CustomerView")),
      Route([Lit("traders")], Screen("TradersList")),
      Route([Lit("traders"), Lit("create")], Screen("TraderCreate")),
      Route([Lit("traders"), Param, Lit("edit")], Screen("TraderEdit")),
      Route([Lit("traders"), Param], Screen("TraderDetail")),
      Route([Lit("files")], Screen("FilesManagement")),
      Route([Lit("files"), Lit("upload")], Screen("FileUpload")),
      Route([Lit("files"), Param, Lit("edit")], Screen("FileEdit")),
      Route([Lit("files"), Param], Screen("FileDetail")),
      Route([Lit("products")], Screen("ProductsManagement")),
      Route([Lit("products"), Lit("create")], Screen("ProductCreate")),
      Route([Lit("products"), Param, Lit("edit")], Screen("ProductEdit")),
      Route([Lit("products"), Param], Screen("ProductDetail")) ]
  }

  /** The two routes declared after the group. */
  function FallbackRoutes(isAuthenticated: bool): seq<Route> {
    [ Route([Lit("dashboard")], Redirect(SignedInOr(isAuthenticated, "/dashboard", "/login"))),
      Route([Lit("customers")], Redirect(SignedInOr(isAuthenticated, "/customers", "/login"))) ]
  }

  function RouteTable(isAuthenticated: bool): seq<Route> {
    PublicRoutes(isAuthenticated) + (if isAuthenticated then DashboardRoutes() else [])
    + FallbackRoutes(isAuthenticated)
  }

  /** The element of the first route in `routes` matching `path`. */
  function FirstMatch(routes: seq<Route>, path: seq<string>): (r: Option<Element>)
    ensures r.None? <==> forall i :: 0 <= i < |routes| ==> !Matches(routes[i].pattern, path)
    ensures r.Some? ==> exists i :: 0 <= i < |routes| && routes[i].element == r.value
                                    && Matches(routes[i].pattern, path)
    decreases |routes|
  {
    if routes == [] then None
    else if Matches(routes[0].pattern, path) then Some(routes[0].element)
    else
      var rest := FirstMatch(routes[1..], path);
      assert forall i :: 1 <= i < |routes| ==> routes[i] == routes[1..][i - 1];
      rest
  }

  /** The element rendered for a request path. */
  function Resolve(path: seq<string>, isAuthenticated: bool): Option<Element> {
    FirstMatch(RouteTable(isAuthenticated), path)
  }

  /** A match in the first part of a table is the table's answer. */
  lemma {:induction false} FirstMatchPrefix(a: seq<Route>, b: seq<Route>, path: seq<string>)
    requires FirstMatch(a, path).Some?
    ensures FirstMatch(a + b, path) == FirstMatch(a, path)
    decreases |a|
  {
    if !Matches(a[0].pattern, path) {
      assert (a + b)[1..] == a[1..] + b;
      FirstMatchPrefix(a[1..], b, path);
    }
  }

  /** With no match in the first part, the answer comes from the rest. */
  lemma {:induction false} FirstMatchSkip(a: seq<Route>, b: seq<Route>, path: seq<string>)
    requires FirstMatch(a, path).None?
    ensures FirstMatch(a + b, path) == FirstMatch(b, path)
    decreases |a|
  {
    if a != [] {
      assert !Matches(a[0].pattern, path);
      assert (a + b)[0] == a[0];
      assert (a + b)[1..] == a[1..] + b;
      assert forall i :: 1 <= i < |a| ==> a[i] == a[1..][i - 1];
      FirstMatchSkip(a[1..], b, path);
    } else {
      assert a + b == b;
    }
  }

  /** The answer is the route at `k` when it is the first that matches. */
  lemma {:induction false} FirstMatchAt(routes: seq<Route>, path: seq<string>, k: int)
    requires 0 <= k < |routes| && Matches(routes[k].pattern, path)
    requires forall i :: 0 <= i < k ==> !Matches(routes[i].pattern, path)
    ensures FirstMatch(routes, path) == Some(routes[k].element)
    decreases k
  {
    if k > 0 {
      assert forall i :: 0 <= i < k - 1 ==> routes[1..][i] == routes[i + 1];
      FirstMatchAt(routes[1..], path, k - 1);
    }
  }

  /** '/' sends a signed-in user to the dashboard and a guest to the sign-in page. */
  lemma RootRedirects(isAuthenticated: bool)
    ensures Resolve([], isAuthenticated) == Some(Redirect(if isAuthenticated then "/dashboard" else "/login"))
  {
    assert Matches(RouteTable(isAuthenticated)[0].pattern, []);
  }

  /** A path the public routes answer is answered the same way by the whole table. */
  lemma ResolvePublic(path: seq<string>, isAuthenticated: bool)
    requires FirstMatch(PublicRoutes(isAuthenticated), path).Some?
    ensures Resolve(path, isAuthenticated) == FirstMatch(PublicRoutes(isAuthenticated), path)
  {
    var rest := (if isAuthenticated then DashboardRoutes() else []) + FallbackRoutes(isAuthenticated);
    assert RouteTable(isAuthenticated) == PublicRoutes(isAuthenticated) + rest;
    FirstMatchPrefix(PublicRoutes(isAuthenticated), rest, path);
  }

  /** '/login', '/register' and '/forgot-password' show their form to guests only. */
  lemma GuestPages(page: string, isAuthenticated: bool)
    requires page in {"login", "register", "forgot-password"}
    ensures Resolve([page], isAuthenticated).Some?
    ensures isAuthenticated ==> Resolve([page], isAuthenticated) == Some(Redirect("/dashboard"))
    ensures !isAuthenticated ==> Resolve([page], isAuthenticated).value.Screen?
  {
    var pub := PublicRoutes(isAuthenticated);
    var k := if page == "login" then 1 else if page == "register" then 2 else 3;
    assert !Matches(pub[0].pattern, [page]);
    assert Matches(pub[k].pattern, [page]);
    if page != "login" {
      assert !Matches(pub[1].pattern, [page]);
    }
    if page == "forgot-password" {
      assert !Matches(pub[2].pattern, [page]);
    }
    FirstMatchAt(pub, [page], k);
    ResolvePublic([page], isAuthenticated);
  }

  /** The reset page renders whether or not the user is signed in. */
  lemma ResetPageForEveryone(token: string, isAuthenticated: bool)
    requires token != ""
    ensures Resolve(["reset-password", token], isAuthenticated) == Some(Screen("ResetPasswordForm"))
  {
    var pub := PublicRoutes(isAuthenticated);
    var path := ["reset-password", token];
    assert !Matches(pub[0].pattern, path) && !Matches(pub[1].pattern, path);
    assert !Matches(pub[2].pattern, path) && !Matches(pub[3].pattern, path);
    assert Matches(pub[4].pattern, path);
    FirstMatchAt(pub, path, 4);
    ResolvePublic(path, isAuthenticated);
  }

  /** The four forms a guest may see. */
  predicate GuestScreen(e: Element) {
    e.Screen? && e.name in {"LoginForm", "RegisterForm", "ForgotPasswordForm", "ResetPasswordForm"}
  }

  /** A guest never reaches a dashboard screen: every path gives a guest form, a redirect, or no match. */
  lemma GuestNeverSeesDashboard(path: seq<string>)
    ensures Resolve(path, false).None? || Resolve(path, false).value.Redirect?
            || GuestScreen(Resolve(path, false).value)
  {
    var table := RouteTable(false);
    assert forall i :: 0 <= i < |table| ==> table[i].element.Redirect? || GuestScreen(table[i].element);
  }

  /** No route of the dashboard group shows a guest form. */
  lemma DashboardScreensAreNotGuestForms()
    ensures forall i :: 0 <= i < |DashboardRoutes()| ==> !GuestScreen(DashboardRoutes()[i].element)
  {
  }

  /** '/dashboard' and '/customers' send a guest to the sign-in page. */
  lemma GuestFallbacks(page: string)
    requires page == "dashboard" || page == "customers"
    ensures Resolve([page], false) == Some(Redirect("/login"))
  {
    var pub := PublicRoutes(false);
    var fb := FallbackRoutes(false);
    assert forall i :: 0 <= i < |pub| ==> !Matches(pub[i].pattern, [page]);
    FirstMatchSkip(pub, fb, [page]);
    assert RouteTable(false) == pub + fb;
    assert Matches(fb[if page == "dashboard" then 0 else 1].pattern, [page]);
    if page == "customers" {
      assert !Matches(fb[0].pattern, [page]);
    }
  }

  /** Signed in, '/dashboard' renders the dashboard: the group's route comes before the fallback. */
  lemma SignedInDashboard()
    ensures Resolve(["dashboard"], true) == Some(Screen("Dashboard"))
  {
    var pub := PublicRoutes(true);
    var rest := DashboardRoutes() + FallbackRoutes(true);
    assert forall i :: 0 <= i < |pub| ==> !Matches(pub[i].pattern, ["dashboard"]);
    FirstMatchSkip(pub, rest, ["dashboard"]);
    assert RouteTable(true) == pub + rest;
    assert Matches(rest[0].pattern, ["dashboard"]);
  }

  /** Signed in, '/traders/create' reaches the create form, not the detail page of a trader "create". */
  lemma SpecificBeforeGeneral()
    ensures Resolve(["traders", "create"], true) == Some(Screen("TraderCreate"))
  {
    var path := ["traders", "create"];
    var table := RouteTable(true);
    assert table[11].element == Screen("TraderCreate");
    assert forall i :: 0 <= i < 11 ==> !Matches(table[i].pattern, path);
    FirstMatchAt(table, path, 11);
  }
}
