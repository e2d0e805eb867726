/** The route table of `src/routes/AppRoutes.tsx`: which page a path shows, and the
    `ProtectedRoute` guard that decides between rendering that page and redirecting. */
module Routes {
  import opened Wrappers

  /** The pages of the table; the parameterised routes keep the `:id` segment they matched. */
  datatype Page =
    | Home
    | ProductDetail(id: string)
    | CartPage
    | Login
    | Register
    | Checkout
    | AdminDashboard
    | AdminProducts
    | ProductForm(editId: Option<string>)
    | AdminOrders
    | NotFound

  /** An unguarded route, or one wrapped in `ProtectedRoute` with its `requiredRole`. */
  datatype Access = Open | Protected(requiredRole: Option<string>)

  datatype Route = Route(page: Page, access: Access)

  /** What the router does for a path: render a page, or `<Navigate to=... replace />`. */
  datatype Outcome = Show(page: Page) | RedirectTo(path: string)

  const AdminRole := "admin"
  const LoginPath := "/login"
  const RootPath := "/"

  /** Number of leading characters before the first `/`. */
  function SegmentLength(s: string): (k: nat)
    ensures k <= |s|
    ensures forall i :: 0 <= i < k ==> s[i] != '/'
    ensures k < |s| ==> s[k] == '/'
  {
    if s == [] || s[0] == '/' then 0 else 1 + SegmentLength(s[1..])
  }

  /** The text without its trailing slashes, which every route pattern accepts and ignores. */
  function TrimTrailingSlashes(s: string): (r: string)
    ensures |r| <= |s| && r == s[..|r|]
    ensures r == [] || r[|r| - 1] != '/'
    ensures forall i :: |r| <= i < |s| ==> s[i] == '/'
  {
    if s != [] && s[|s| - 1] == '/' then TrimTrailingSlashes(s[..|s| - 1]) else s
  }

  /** `s.split('/')`: the pieces between the slashes, empty ones included. */
  function Split(s: string): (r: seq<string>)
    ensures |r| >= 1
    ensures forall i :: 0 <= i < |r| ==> '/' !in r[i]
    decreases |s|
  {
    var k := SegmentLength(s);
    if k == |s| then [s] else [s[..k]] + Split(s[k + 1..])
  }

  /** A location's path always starts with `/`. */
  predicate IsPathname(path: string)
  {
    |path| > 0 && path[0] == '/'
  }

  /** The segments the route patterns are compared with: what follows the leading `/`,
      without the trailing slashes, split at every `/`. An empty segment is kept, so a
      doubled slash inside a path (`/products//7`) matches no pattern. */
  function Segments(path: string): (r: seq<string>)
    requires IsPathname(path)
    ensures forall i :: 0 <= i < |r| ==> '/' !in r[i]
  {
    var rest := TrimTrailingSlashes(path[1..]);
    if rest == [] then [] else Split(rest)
  }

  /** A word without `/` followed by nothing or by a `/` is the first segment. */
  lemma SegmentLengthOf(w: string, rest: string)
    requires '/' !in w
    requires rest == [] || rest[0] == '/'
    ensures SegmentLength(w + rest) == |w|
  {
    var s := w + rest;
    if rest != [] {
      assert s[|w|] == rest[0];
    }
    assert forall i :: 0 <= i < |w| ==> s[i] == w[i] && w[i] in w;
  }

  /** Text without `/` is one piece. */
  lemma SplitOne(w: string)
    requires '/' !in w
    ensures Split(w) == [w]
  {
    SegmentLengthOf(w, "");
    assert w + "" == w;
  }

  /** A word without `/` and a `/` in front of the rest give that word as the first piece. */
  lemma SplitCons(w: string, t: string)
    requires '/' !in w
    ensures Split(w + "/" + t) == [w] + Split(t)
  {
    var s := w + "/" + t;
    assert s == w + ("/" + t);
    SegmentLengthOf(w, "/" + t);
    assert s[..|w|] == w && s[|w| + 1..] == t;
  }

  /** A path whose last character is not `/` loses only its leading `/`. */
  lemma SegmentsNoTrailing(path: string)
    requires IsPathname(path) && |path| > 1 && path[|path| - 1] != '/'
    ensures Segments(path) == Split(path[1..])
  {
    var rest := path[1..];
    assert rest[|rest| - 1] == path[|path| - 1];
    assert TrimTrailingSlashes(rest) == rest;
  }

  /** `/a` is read as the single segment `a`. */
  lemma SegmentsOfOne(a: string)
    requires a != [] && '/' !in a
    ensures IsPathname("/" + a)
    ensures Segments("/" + a) == [a]
  {
    var path := "/" + a;
    assert path[1..] == a && path[|path| - 1] == a[|a| - 1] && a[|a| - 1] in a;
    SegmentsNoTrailing(path);
    SplitOne(a);
  }

  /** `/a/b` is read as the two segments `a` and `b`. */
  lemma SegmentsOfTwo(a: string, b: string)
    requires a != [] && '/' !in a && b != [] && '/' !in b
    ensures IsPathname("/" + a + ("/" + b))
    ensures Segments("/" + a + ("/" + b)) == [a, b]
  {
    var path := "/" + a + ("/" + b);
    assert path[1..] == a + "/" + b && path[|path| - 1] == b[|b| - 1] && b[|b| - 1] in b;
    SegmentsNoTrailing(path);
    SplitCons(a, b);
    SplitOne(b);
  }

  /** The `<Routes>` table, one entry per `<Route path=...>`, with `*` as the fallback; a
      `:id` matches one non-empty segment. */
  function Lookup(segs: seq<string>): (r: Route)
    ensures r.page.ProductDetail? ==> |segs| == 2 && r.page.id == segs[1] && r.page.id != ""
    ensures r.page.ProductForm? && r.page.editId.Some? ==> |segs| == 4 && r.page.editId.value == segs[3] && segs[3] != ""
    ensures r.access.Protected? ==> |segs| >= 1 && (segs[0] == "checkout" || segs[0] == "admin")
    ensures r.page == NotFound ==> r.access == Open
  {
    if segs == [] then Route(Home, Open)
    else if |segs| == 2 && segs[0] == "products" && segs[1] != "" then Route(ProductDetail(segs[1]), Open)
    else if segs == ["cart"] then Route(CartPage, Open)
    else if segs == ["login"] then Route(Login, Open)
    else if segs == ["register"] then Route(Register, Open)
    else if segs == ["checkout"] then Route(Checkout, Protected(None))
    else if segs == ["admin", "dashboard"] then Route(AdminDashboard, Protected(Some(AdminRole)))
    else if segs == ["admin", "products"] then Route(AdminProducts, Protected(Some(AdminRole)))
    else if segs == ["admin", "products", "create"] then Route(ProductForm(None), Protected(Some(AdminRole)))
    else if |segs| == 4 && segs[..3] == ["admin", "products", "edit"] && segs[3] != "" then
      Route(ProductForm(Some(segs[3])), Protected(Some(AdminRole)))
    else if segs == ["admin", "orders"] then Route(AdminOrders, Protected(Some(AdminRole)))
    else Route(NotFound, Open)
  }

  /** `ProtectedRoute`: login first, then the admin role when one is required. */
  function Guard(isAuthenticated: bool, isAdmin: bool, requiredRole: Option<string>, page: Page): (r: Outcome)
    ensures r.Show? ==> r.page == page && isAuthenticated
    ensures r.RedirectTo? ==> r.path == LoginPath || r.path == RootPath
  {
    if !isAuthenticated then RedirectTo(LoginPath)
    else if requiredRole == Some(AdminRole) && !isAdmin then RedirectTo(RootPath)
    else Show(page)
  }

  /** The outcome for a list of segments and a session. */
  function Resolve(segs: seq<string>, isAuthenticated: bool, isAdmin: bool): (r: Outcome)
    ensures r.RedirectTo? ==> Lookup(segs).access.Protected?
    ensures r.Show? ==> r.page == Lookup(segs).page
  {
    var route := Lookup(segs);
    match route.access
    case Open => Show(route.page)
    case Protected(role) => Guard(isAuthenticated, isAdmin, role, route.page)
  }

  /** The outcome for a location's path. */
  function Navigate(path: string, isAuthenticated: bool, isAdmin: bool): (r: Outcome)
    requires IsPathname(path)
    ensures r.RedirectTo? ==> r.path == LoginPath || r.path == RootPath
    ensures r.Show? && r.page.ProductDetail? ==> r.page.id != "" && '/' !in r.page.id
  {
    Resolve(Segments(path), isAuthenticated, isAdmin)
  }

  /** The three answers of the guard: a visitor is sent to the login page whatever role is
      required; a user without the admin flag is sent home from an admin route; otherwise
      the wrapped page renders. */
  lemma GuardSpec(isAuthenticated: bool, isAdmin: bool, requiredRole: Option<string>, page: Page)
    ensures !isAuthenticated ==> Guard(isAuthenticated, isAdmin, requiredRole, page) == RedirectTo(LoginPath)
    ensures isAuthenticated && !isAdmin && requiredRole == Some(AdminRole) ==>
      Guard(isAuthenticated, isAdmin, requiredRole, page) == RedirectTo(RootPath)
    ensures Guard(isAuthenticated, isAdmin, requiredRole, page) == Show(page) <==>
      isAuthenticated && (requiredRole != Some(AdminRole) || isAdmin)
  {
  }

  /** `/checkout` needs a session and nothing more. */
  lemma CheckoutNeedsLogin(path: string, isAuthenticated: bool, isAdmin: bool)
    requires IsPathname(path) && Segments(path) == ["checkout"]
    ensures Navigate(path, isAuthenticated, isAdmin) ==
      if isAuthenticated then Show(Checkout) else RedirectTo(LoginPath)
  {
  }

  predicate IsAdminPage(p: Page)
  {
    p.AdminDashboard? || p.AdminProducts? || p.ProductForm? || p.AdminOrders?
  }

  /** Every route the table matches under `/admin` requires the admin role, and the
      admin pages are exactly those routes. */
  lemma {:induction false} AdminRoutesRequireAdmin(segs: seq<string>)
    ensures |segs| >= 1 && segs[0] == "admin" && Lookup(segs).page != NotFound ==>
      Lookup(segs).access == Protected(Some(AdminRole))
    ensures IsAdminPage(Lookup(segs).page) <==> Lookup(segs).access == Protected(Some(AdminRole))
  {
  }

  /** An admin page is only ever shown to an authenticated admin. */
  lemma AdminPagesOnlyForAdmins(path: string, isAuthenticated: bool, isAdmin: bool)
    requires IsPathname(path)
    requires Navigate(path, isAuthenticated, isAdmin).Show?
    requires IsAdminPage(Navigate(path, isAuthenticated, isAdmin).page)
    ensures isAuthenticated && isAdmin
  {
    AdminRoutesRequireAdmin(Segments(path));
  }

  /** The public paths render their page whatever the session. */
  lemma PublicPaths(segs: seq<string>, isAuthenticated: bool, isAdmin: bool)
    ensures segs == [] ==> Resolve(segs, isAuthenticated, isAdmin) == Show(Home)
    ensures |segs| == 2 && segs[0] == "products" && segs[1] != "" ==>
      Resolve(segs, isAuthenticated, isAdmin) == Show(ProductDetail(segs[1]))
    ensures segs == ["cart"] ==> Resolve(segs, isAuthenticated, isAdmin) == Show(CartPage)
    ensures segs == ["login"] ==> Resolve(segs, isAuthenticated, isAdmin) == Show(Login)
    ensures segs == ["register"] ==> Resolve(segs, isAuthenticated, isAdmin) == Show(Register)
  {
  }

  /** A path whose first segment names no route, or a known route with the wrong number
      of segments, falls through to `*`. */
  lemma UnknownPathsNotFound(segs: seq<string>, isAuthenticated: bool, isAdmin: bool)
    requires |segs| >= 1
    requires segs[0] !in {"products", "cart", "login", "register", "checkout", "admin"} || |segs| > 4
    ensures Resolve(segs, isAuthenticated, isAdmin) == Show(NotFound)
  {
  }

  /** The `:id` a parameterised route hands to its page is one whole segment of the path:
      never empty and free of `/`. */
  lemma RouteParameters(path: string)
    requires IsPathname(path)
    ensures var page := Lookup(Segments(path)).page;
      && (page.ProductDetail? ==> page.id != "" && '/' !in page.id)
      && (page.ProductForm? && page.editId.Some? ==> page.editId.value != "" && '/' !in page.editId.value)
  {
    var segs := Segments(path);
    var page := Lookup(segs).page;
    if page.ProductDetail? {
      assert |segs| == 2 && page.id == segs[1];
    } else if page.ProductForm? && page.editId.Some? {
      assert |segs| == 4 && page.editId.value == segs[3];
    }
  }

  /** Both redirect targets are open routes, so a redirect never leads to another redirect. */
  lemma RedirectsSettle(path: string, isAuthenticated: bool, isAdmin: bool)
    requires IsPathname(path)
    requires Navigate(path, isAuthenticated, isAdmin).RedirectTo?
    ensures IsPathname(Navigate(path, isAuthenticated, isAdmin).path)
    ensures Navigate(Navigate(path, isAuthenticated, isAdmin).path, isAuthenticated, isAdmin).Show?
  {
    var target := Navigate(path, isAuthenticated, isAdmin).path;
    assert target == LoginPath || target == RootPath;
    RedirectTargetsOpen(isAuthenticated, isAdmin);
  }

  /** The login page and the home page render for every session. */
  lemma RedirectTargetsOpen(isAuthenticated: bool, isAdmin: bool)
    ensures Navigate(LoginPath, isAuthenticated, isAdmin) == Show(Login)
    ensures Navigate(RootPath, isAuthenticated, isAdmin) == Show(Home)
  {
    SegmentsOfOne("login");
    assert "/" + "login" == LoginPath;
    assert RootPath[1..] == [];
  }

  /** A path with an empty segment inside, such as `/products//7`, matches no pattern and
      falls through to `*`. */
  lemma EmptySegmentNotFound(segs: seq<string>, k: nat, isAuthenticated: bool, isAdmin: bool)
    requires k < |segs| && segs[k] == ""
    ensures Resolve(segs, isAuthenticated, isAdmin) == Show(NotFound)
  {
  }
}
