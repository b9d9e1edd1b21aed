/**
 * The web client's router (apps/web/src/router/index.ts): the route table,
 * of which only the login page is public, and the global `beforeEach`
 * guard, which sends a signed-out user to the login page and a signed-in
 * user away from it.
 *
 * Route components are not modelled; a route is its path, its `public`
 * flag and its redirect.
 */
module Router {
  import opened Wrappers
  import opened Seqs

  const LoginPath: string := "/login"
  const HomePath: string := "/app/services"

  /** A child of a nested route; `path` is relative to the parent's. */
  datatype ChildRoute = ChildRoute(path: string, isPublic: bool, redirect: Option<string>)

  /** A top-level route record. */
  datatype Route = Route(path: string, isPublic: bool, redirect: Option<string>, children: seq<ChildRoute>)

  /** A route as the router resolves it: a full path, its `meta.public`, its redirect. */
  datatype Resolved = Resolved(path: string, isPublic: bool, redirect: Option<string>)

  /** The `routes` option of `createRouter`. */
  const Routes: seq<Route> := [
    Route("/", false, Some(HomePath), []),
    Route(LoginPath, true, None, []),
    Route("/app", false, None, [
      ChildRoute("", false, Some(HomePath)),
      ChildRoute("services", false, None),
      ChildRoute("services/:id", false, None),
      ChildRoute("dashboard", false, None)])]

  /** A child's full path: the empty child is the parent's own path. */
  function ChildPath(parent: string, child: string): string {
    if child == "" then parent else parent + "/" + child
  }

  /** A child's `meta` is merged over its parent's, so a public parent makes its children public. */
  function ResolveChildren(parent: Route): (r: seq<Resolved>)
    ensures |r| == |parent.children|
  {
    seq(|parent.children|, i requires 0 <= i < |parent.children| =>
      Resolved(ChildPath(parent.path, parent.children[i].path),
               parent.isPublic || parent.children[i].isPublic,
               parent.children[i].redirect))
  }

  /** The routes a navigation can end on: a route with children is reached through them. */
  function Flatten(routes: seq<Route>): seq<Resolved> {
    if routes == [] then []
    else
      (if routes[0].children == [] then [Resolved(routes[0].path, routes[0].isPublic, routes[0].redirect)]
       else ResolveChildren(routes[0]))
      + Flatten(routes[1..])
  }

  const Table: seq<Resolved> := Flatten(Routes)

  /** The resolved route a path matches, if any (patterns are matched literally). */
  function Lookup(path: string): (r: Option<Resolved>)
    ensures r.Some? ==> r.value in Table && r.value.path == path
    ensures r.None? ==> forall k :: 0 <= k < |Table| ==> Table[k].path != path
  {
    match Find(Table, (x: Resolved) => x.path == path)
    case Some(k) => Some(Table[k])
    case None => None
  }

  /** `Boolean(to.meta.public)`: an unmatched route carries no meta. */
  predicate IsPublicPath(path: string) {
    Lookup(path).Some? && Lookup(path).value.isPublic
  }

  /** Where a navigation to `path` lands once the route's redirect is applied. */
  function Land(path: string): string {
    if Lookup(path).Some? && Lookup(path).value.redirect.Some? then Lookup(path).value.redirect.value else path
  }

  datatype Decision = Allow | Redirect(target: string)

  /**
   * The `beforeEach` guard: a navigation goes ahead exactly when the
   * target is public and the user signed out, or private and signed in.
   */
  function BeforeEach(isPublic: bool, isAuthenticated: bool): (d: Decision)
    ensures d == Allow <==> isPublic != isAuthenticated
    ensures d == Redirect(LoginPath) <==> !isPublic && !isAuthenticated
    ensures d == Redirect(HomePath) <==> isPublic && isAuthenticated
  {
    if !isPublic && !isAuthenticated then Redirect(LoginPath)
    else if isPublic && isAuthenticated then Redirect(HomePath)
    else Allow
  }

  /** The guard's verdict on a navigation to `path`. */
  function Navigate(path: string, isAuthenticated: bool): Decision {
    BeforeEach(IsPublicPath(Land(path)), isAuthenticated)
  }

  /** The resolved table, written out. */
  lemma TableContents()
    ensures Table == [
      Resolved("/", false, Some(HomePath)),
      Resolved(LoginPath, true, None),
      Resolved("/app", false, Some(HomePath)),
      Resolved(HomePath, false, None),
      Resolved("/app/services/:id", false, None),
      Resolved("/app/dashboard", false, None)]
  {
    var app := Routes[2];
    var children := ResolveChildren(app);
    assert ChildPath("/app", "services") == HomePath by { JoinPath("/app", "services", HomePath); }
    assert ChildPath("/app", "services/:id") == "/app/services/:id" by { JoinPath("/app", "services/:id", "/app/services/:id"); }
    assert ChildPath("/app", "dashboard") == "/app/dashboard" by { JoinPath("/app", "dashboard", "/app/dashboard"); }
    assert children == [
      Resolved("/app", false, Some(HomePath)),
      Resolved(HomePath, false, None),
      Resolved("/app/services/:id", false, None),
      Resolved("/app/dashboard", false, None)];
    assert Routes[1..][1..] == [app];
    assert Flatten([app]) == children by {
      assert [app][1..] == [];
    }
    assert Flatten(Routes[1..]) == [Resolved(LoginPath, true, None)] + children;
  }

  /** `parent + "/" + child` spelled out. */
  lemma JoinPath(parent: string, child: string, full: string)
    requires |full| == |parent| + 1 + |child|
    requires full[..|parent|] == parent && full[|parent|] == '/' && full[|parent| + 1..] == child
    requires child != ""
    ensures ChildPath(parent, child) == full
  {
    assert full == full[..|parent|] + [full[|parent|]] + full[|parent| + 1..];
  }

  /** Only the login page is public; `/` and `/app` redirect to the service list, which does not redirect. */
  lemma OnlyLoginIsPublic()
    ensures forall k :: 0 <= k < |Table| ==> (Table[k].isPublic <==> Table[k].path == LoginPath)
    ensures forall k :: 0 <= k < |Table| && Table[k].redirect.Some? ==> Table[k].redirect == Some(HomePath)
    ensures Lookup("/") == Some(Resolved("/", false, Some(HomePath)))
    ensures Lookup("/app") == Some(Resolved("/app", false, Some(HomePath)))
    ensures Lookup(HomePath) == Some(Resolved(HomePath, false, None))
    ensures Lookup(LoginPath) == Some(Resolved(LoginPath, true, None))
  {
    TableContents();
    assert Table[0].path == "/";
    assert Table[1].path == LoginPath;
    assert Table[2].path == "/app";
    assert Table[3].path == HomePath;
  }

  /** A navigation lands where it was sent, or on the service list. */
  lemma LandSpec(path: string)
    ensures Land(path) == path || Land(path) == HomePath
  {
    OnlyLoginIsPublic();
    var r := Lookup(path);
    if r.Some? {
      var k :| 0 <= k < |Table| && Table[k] == r.value;
    }
  }

  /** Every path other than the login page is private. */
  lemma PrivateUnlessLogin(path: string)
    ensures IsPublicPath(path) <==> path == LoginPath
  {
    OnlyLoginIsPublic();
    var r := Lookup(path);
    if r.Some? {
      var k :| 0 <= k < |Table| && Table[k] == r.value;
    }
  }

  /** Signed out, every navigation except to the login page is sent to the login page. */
  lemma SignedOutGoesToLogin(path: string)
    requires path != LoginPath
    ensures Navigate(path, false) == Redirect(LoginPath)
  {
    LandSpec(path);
    PrivateUnlessLogin(Land(path));
  }

  /** Signed in, a navigation to the login page is sent to the service list. */
  lemma SignedInLeavesLogin()
    ensures Navigate(LoginPath, true) == Redirect(HomePath)
  {
    OnlyLoginIsPublic();
  }

  /** A redirect of the guard lands on a page the guard then lets through: no redirect loop. */
  lemma NavigationSettles(path: string, isAuthenticated: bool)
    ensures Navigate(path, isAuthenticated).Redirect? ==>
      var t := Navigate(path, isAuthenticated).target;
      Land(t) == t && Navigate(t, isAuthenticated) == Allow
  {
    OnlyLoginIsPublic();
  }
}
