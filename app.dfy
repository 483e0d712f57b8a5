/**
 * The client's routes: what the home page shows for the session's state, and which role
 * each route demands.
 */
module App {
  import opened Wrappers
  import opened Json
  import Auth

  /** What `Home` renders: the loading placeholder, a redirect, or the public leaderboard. */
  datatype HomeView = LoadingPlaceholder | Redirect(target: string) | PublicLeaderboard

  /** `Home`: wait for the session, send a visitor to the login page, each role to its dashboard. */
  function Home(loading: bool, user: Json): (v: HomeView)
    ensures loading <==> v == LoadingPlaceholder
    ensures v.Redirect? <==> !loading && (!Truthy(user) || Auth.IsAdmin(user) || Prop(user, "role") == JStr("leader"))
  {
    if loading then LoadingPlaceholder
    else if !Truthy(user) then Redirect("/login")
    else if Prop(user, "role") == JStr("admin") then Redirect("/admin/dashboard")
    else if Prop(user, "role") == JStr("leader") then Redirect("/leader/dashboard")
    else PublicLeaderboard
  }

  /** The routes the router is configured with. */
  datatype Route = LoginRoute | AdminRoute | LeaderRoute | HomeRoute | NoRoute

  /** A route pattern ending in a wildcard segment matches its base path and everything below it. */
  predicate UnderPrefix(path: string, base: string) {
    path == base || base + "/" <= path
  }

  /** The route a path selects. Case folding and trailing slashes are not modelled. */
  function MatchRoute(path: string): Route {
    if path == "/login" then LoginRoute
    else if UnderPrefix(path, "/admin") then AdminRoute
    else if UnderPrefix(path, "/leader") then LeaderRoute
    else if path == "/" then HomeRoute
    else NoRoute
  }

  /** The role a route's guard demands; the login page and the home page are unguarded. */
  function RequiredRole(r: Route): (role: Option<string>)
    ensures role.Some? <==> r == AdminRoute || r == LeaderRoute
  {
    match r
    case AdminRoute => Some("admin")
    case LeaderRoute => Some("leader")
    case _ => None
  }

  /**
   * Each redirect of `Home` lands on a route that lets its user in: the login page is
   * unguarded, and an admin or a leader lands on the area that demands exactly its role.
   */
  lemma HomeRedirectsFit(loading: bool, user: Json)
    ensures Home(loading, user).Redirect? ==>
      var r := MatchRoute(Home(loading, user).target);
      (!Truthy(user) ==> r == LoginRoute && RequiredRole(r).None?) &&
      (Truthy(user) ==> RequiredRole(r).Some? && Prop(user, "role") == JStr(RequiredRole(r).value))
    ensures Home(loading, user) == PublicLeaderboard ==>
      Truthy(user) && !Auth.IsLeader(user)
  {
    assert "/admin" + "/" <= "/admin/dashboard";
    assert "/leader" + "/" <= "/leader/dashboard";
    Mismatch("/admin" + "/", "/leader/dashboard", 1);
    Mismatch("/admin" + "/", "/login", 1);
    Mismatch("/leader" + "/", "/login", 2);
  }

  /** Two strings that differ at a position both have are not prefixes of one another. */
  lemma Mismatch(a: string, b: string, i: nat)
    requires i < |a| && i < |b| && a[i] != b[i]
    ensures !(a <= b)
  {
  }

  /** The guarded areas cover `/admin` and `/leader` and all below them; everything else is unguarded. */
  lemma GuardedAreas(path: string)
    ensures path != "/login" && UnderPrefix(path, "/admin") ==> RequiredRole(MatchRoute(path)) == Some("admin")
    ensures path != "/login" && !UnderPrefix(path, "/admin") && UnderPrefix(path, "/leader") ==>
      RequiredRole(MatchRoute(path)) == Some("leader")
    ensures !UnderPrefix(path, "/admin") && !UnderPrefix(path, "/leader") ==> RequiredRole(MatchRoute(path)).None?
  {
  }
}
