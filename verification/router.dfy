/** The route table and the navigation guard (src/router/index.ts). The guard is
    a pure decision over the target's path, its `meta.requiresAuth` and whether
    the session store reports a login. */
module Router {
  import opened Wrappers
  import Users

  const LoginPath: string := "/login"
  const RegisterPath: string := "/register"
  const TripsPath: string := "/trips"

  /** `meta.requiresAuth`, which a record may leave undefined. */
  datatype Meta = Meta(requiresAuth: Option<bool>)

  datatype RouteRecord = RouteRecord(path: string, name: Option<string>, redirect: Option<string>, meta: Meta)

  /** The application's route table, in declaration order. */
  const Routes: seq<RouteRecord> := [
    RouteRecord("/", None, Some(TripsPath), Meta(None)),
    RouteRecord(LoginPath, Some("Login"), None, Meta(Some(false))),
    RouteRecord(RegisterPath, Some("Register"), None, Meta(Some(false))),
    RouteRecord(TripsPath, Some("Trips"), None, Meta(Some(true))),
    RouteRecord("/trips/new", Some("NewTrip"), None, Meta(Some(true))),
    RouteRecord("/trips/:id", Some("TripDetail"), None, Meta(Some(true))),
    RouteRecord("/expenses", Some("Expenses"), None, Meta(Some(true)))
  ]

  /** The route being navigated to, as the guard sees it. */
  datatype Target = Target(path: string, meta: Meta)

  /** The single call the guard makes to `next`. */
  datatype Decision = Proceed | RedirectTo(path: string)

  /** `to.meta.requiresAuth !== false`: only an explicit `false` makes a route public. */
  predicate RequiresAuth(meta: Meta) {
    meta.requiresAuth != Some(false)
  }

  /** The `beforeEach` guard. */
  function BeforeEach(to: Target, loggedIn: bool): (d: Decision)
    ensures d == RedirectTo(LoginPath) <==> RequiresAuth(to.meta) && !loggedIn
    ensures d == RedirectTo(TripsPath) <==>
      !(RequiresAuth(to.meta) && !loggedIn) && (to.path == LoginPath || to.path == RegisterPath) && loggedIn
    ensures d.RedirectTo? ==> d.path == LoginPath || d.path == TripsPath
  {
    if RequiresAuth(to.meta) && !loggedIn then RedirectTo(LoginPath)
    else if (to.path == LoginPath || to.path == RegisterPath) && loggedIn then RedirectTo(TripsPath)
    else Proceed
  }

  /** The guard as installed: the login state is read from the session store,
      so the decision depends on the held token and never on the user profile. */
  function Guard(to: Target, session: Users.UserStore): (d: Decision)
    reads session
    ensures d == BeforeEach(to, session.token.Some? && session.token.value != "")
  {
    BeforeEach(to, session.IsLoggedIn())
  }

  /** The first record of `routes` declared for `path`, if any. */
  function FindRoute(routes: seq<RouteRecord>, path: string): (r: Option<RouteRecord>)
    ensures r.Some? ==> r.value in routes && r.value.path == path
    ensures r.None? <==> forall i :: 0 <= i < |routes| ==> routes[i].path != path
  {
    if |routes| == 0 then None
    else if routes[0].path == path then Some(routes[0])
    else FindRoute(routes[1..], path)
  }

  /** ASCII lower case. The matcher compares case-insensitively, and every path
      of the table is ASCII, which a non-ASCII character never folds onto. */
  function Lower(c: char): char {
    if 'A' <= c <= 'Z' then (c as int - 'A' as int + 'a' as int) as char else c
  }

  function LowerCase(s: string): string {
    seq(|s|, i requires 0 <= i < |s| => Lower(s[i]))
  }

  /** The form in which the router's default matcher (not strict, not case
      sensitive) compares a path with the table: case folded, and with one
      trailing slash dropped. */
  function Normalize(path: string): (p: string)
    ensures |LowerCase(path)| > 1 && path[|path| - 1] == '/' ==> p == LowerCase(path)[..|path| - 1]
    ensures !(|path| > 1 && path[|path| - 1] == '/') ==> p == LowerCase(path)
    ensures forall i :: 0 <= i < |p| ==> p[i] == Lower(path[i])
  {
    var q := LowerCase(path);
    if |q| > 1 && q[|q| - 1] == '/' then q[..|q| - 1] else q
  }

  /** A path with no upper-case letter and no trailing slash is already normal. */
  lemma NormalizeCanonical(path: string)
    requires forall i :: 0 <= i < |path| ==> !('A' <= path[i] <= 'Z')
    requires |path| <= 1 || path[|path| - 1] != '/'
    ensures Normalize(path) == path
  {
    assert LowerCase(path) == path;
  }

  /** The target for `path`: its raw path, which the guard compares as it is, and
      the meta of the record the normalized path matches, or an empty meta when
      no record is declared for it. */
  function TargetFor(path: string): (to: Target)
    ensures to.path == path
    ensures FindRoute(Routes, Normalize(path)).Some? ==> to.meta == FindRoute(Routes, Normalize(path)).value.meta
    ensures FindRoute(Routes, Normalize(path)).None? ==> to.meta == Meta(None)
  {
    match FindRoute(Routes, Normalize(path))
    case Some(r) => Target(path, r.meta)
    case None => Target(path, Meta(None))
  }

  /** In the table, exactly the login and registration routes are public. */
  lemma OnlyLoginAndRegisterArePublic()
    ensures forall i :: 0 <= i < |Routes| ==>
      (!RequiresAuth(Routes[i].meta) <==> Routes[i].path == LoginPath || Routes[i].path == RegisterPath)
  {
    forall i | 0 <= i < |Routes|
      ensures !RequiresAuth(Routes[i].meta) <==> Routes[i].path == LoginPath || Routes[i].path == RegisterPath
    {
      assert Routes[i] in Routes;
    }
  }

  /** Every path requires a login, whether or not a record is declared for it,
      except those the matcher takes for `/login` or `/register`. */
  lemma PublicPathsExactly(path: string)
    ensures !RequiresAuth(TargetFor(path).meta) <==> Normalize(path) == LoginPath || Normalize(path) == RegisterPath
  {
    OnlyLoginAndRegisterArePublic();
    var p := Normalize(path);
    if p == LoginPath {
      assert Routes[1].path == p;
    } else if p == RegisterPath {
      assert Routes[2].path == p;
    }
  }

  /** The guard never loops: navigating to the target it redirects to, under the
      same login state, proceeds. */
  lemma RedirectConverges(path: string, loggedIn: bool)
    ensures BeforeEach(TargetFor(path), loggedIn).RedirectTo? ==>
      BeforeEach(TargetFor(BeforeEach(TargetFor(path), loggedIn).path), loggedIn) == Proceed
  {
    NormalizeCanonical(LoginPath);
    NormalizeCanonical(TripsPath);
    PublicPathsExactly(LoginPath);
    PublicPathsExactly(TripsPath);
  }

  /** The guard compares the raw path with `/login` and `/register`, but the
      matcher also takes their case and trailing-slash variants for those routes:
      such a variant is public and proceeds, logged in or not, instead of
      sending a logged-in user to `/trips`. */
  lemma LoginVariantsProceed(path: string, loggedIn: bool)
    requires Normalize(path) == LoginPath || Normalize(path) == RegisterPath
    requires path != LoginPath && path != RegisterPath
    ensures BeforeEach(TargetFor(path), loggedIn) == Proceed
  {
    PublicPathsExactly(path);
  }

  /** `/login/` and `/LOGIN` are such variants. */
  lemma LoginVariantsExist()
    ensures Normalize("/login/") == LoginPath && Normalize("/LOGIN") == LoginPath
  {
    assert LowerCase("/login/") == "/login/";
    assert LowerCase("/LOGIN") == LoginPath;
  }
}
