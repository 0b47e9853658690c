/** The single-page app's router: the table of routes, the lookup of the
    current path in it, and `handleRouting`, which either renders the
    route's page or, for a page that needs a signed-in user when nobody is
    signed in, navigates to the sign-in page instead. The browser's
    location and history and the pages rendered are the state of a
    `Browser`; whether a user is signed in is a field set from outside. */
module Router {
  import opened Wrappers

  /** The page a route renders. */
  datatype View = AuthPage | ProfilePage | GamePage | TournamentPage | StatisticsPage | LiveChatPage

  datatype Route = Route(path: string, view: View, authRequired: bool)

  const HOME := "/"

  /** The `routes` table. */
  const ROUTES: seq<Route> := [
    Route(HOME, AuthPage, false),
    Route("/profile", ProfilePage, true),
    Route("/game", GamePage, true),
    Route("/tournament", TournamentPage, true),
    Route("/statistics", StatisticsPage, true),
    Route("/livechat", LiveChatPage, true)
  ]

  /** `Array.prototype.find` on the path: the first route with that path. */
  function Find(routes: seq<Route>, path: string): (found: Option<Route>)
    ensures found.Some? <==> exists i :: 0 <= i < |routes| && routes[i].path == path
    ensures found.Some? ==> exists i :: 0 <= i < |routes| && routes[i] == found.value
                                        && routes[i].path == path
                                        && forall j :: 0 <= j < i ==> routes[j].path != path
  {
    if routes == [] then None
    else if routes[0].path == path then Some(routes[0])
    else
      var rest := Find(routes[1..], path);
      assert forall i :: 0 < i < |routes| ==> routes[i] == routes[1..][i - 1];
      rest
  }

  /** The route `handleRouting` picks: the one for the path, or the first
      route when there is none. */
  function Lookup(path: string): Route {
    match Find(ROUTES, path)
    case Some(r) => r
    case None => ROUTES[0]
  }

  /** Where the browser ends up: the sign-in page when the route needs a
      signed-in user and there is none, the path itself otherwise. */
  function Target(path: string, authenticated: bool): string {
    if Lookup(path).authRequired && !authenticated then HOME else path
  }

  /** The page that is rendered. */
  function Shown(path: string, authenticated: bool): View {
    Lookup(Target(path, authenticated)).view
  }

  /** The table: '/' is the first route and the only one that does not
      need a signed-in user, and no two routes share a path. */
  lemma RoutesTable()
    ensures ROUTES[0].path == HOME && !ROUTES[0].authRequired
    ensures forall i :: 0 < i < |ROUTES| ==> ROUTES[i].authRequired && ROUTES[i].path != HOME
    ensures forall i, j :: 0 <= i < j < |ROUTES| ==> ROUTES[i].path != ROUTES[j].path
  {
  }

  /** A path in the table gets its own route; any other gets the sign-in
      route; so only '/' and unknown paths get a route that needs no
      signed-in user. */
  lemma LookupSpec(path: string)
    ensures (exists i :: 0 <= i < |ROUTES| && ROUTES[i].path == path) ==> Lookup(path).path == path
    ensures (forall i :: 0 <= i < |ROUTES| ==> ROUTES[i].path != path) ==> Lookup(path) == ROUTES[0]
    ensures Lookup(path) in ROUTES
    ensures !Lookup(path).authRequired <==> Lookup(path).path == HOME
  {
    RoutesTable();
    match Find(ROUTES, path)
    case Some(r) =>
      var i :| 0 <= i < |ROUTES| && ROUTES[i] == r && ROUTES[i].path == path;
    case None =>
  }

  /** '/' needs no signed-in user, so the redirect lands and stays there:
      routing the target again goes nowhere else. */
  lemma {:induction false} RedirectSettles(path: string, authenticated: bool)
    ensures !Lookup(HOME).authRequired && Target(HOME, authenticated) == HOME
    ensures Target(Target(path, authenticated), authenticated) == Target(path, authenticated)
  {
    assert Find(ROUTES, HOME) == Some(ROUTES[0]);
    LookupSpec(path);
  }

  /** Nobody signed in sees the sign-in page, whatever the path; a
      signed-in user stays on the path and sees its route's page, the
      sign-in page for an unknown path. */
  lemma ShownSpec(path: string)
    ensures Shown(path, false) == AuthPage
    ensures Target(path, true) == path && Shown(path, true) == Lookup(path).view
    ensures Shown(path, true) == AuthPage <==> !Lookup(path).authRequired
  {
    LookupSpec(path);
    RedirectSettles(path, false);
    var r := Lookup(path);
    assert r == ROUTES[0] || r == ROUTES[1] || r == ROUTES[2] || r == ROUTES[3] || r == ROUTES[4] || r == ROUTES[5];
  }

  /** A path's measure for the redirect: '/' cannot redirect. */
  function Depth(path: string): nat {
    if path == HOME then 0 else 1
  }

  /** The browser: its location, the entries `pushState` added, the pages
      rendered, and what `isAuthenticated` answers. Paths are kept as
      given: query strings, hashes and relative paths are not resolved. */
  class Browser {
    var location: string
    var history: seq<string>
    var rendered: seq<View>
    var authenticated: bool

    constructor (start: string, signedIn: bool)
      ensures location == start && history == [] && rendered == [] && authenticated == signedIn
    {
      location := start;
      history := [];
      rendered := [];
      authenticated := signedIn;
    }

    /** `navigateTo`: push the path and route it. */
    method NavigateTo(path: string)
      modifies this
      ensures location == Target(path, authenticated)
      ensures history == old(history) + [path] + (if Target(path, authenticated) != path then [HOME] else [])
      ensures rendered == old(rendered) + [Shown(path, authenticated)]
      ensures authenticated == old(authenticated)
      decreases Depth(path), 1
    {
      location := path;
      history := history + [path];
      HandleRouting();
    }

    /** `handleRouting`: render the current path's route, or navigate to
        '/' when it needs a signed-in user and nobody is. */
    method HandleRouting()
      modifies this
      ensures location == Target(old(location), authenticated)
      ensures history == old(history) + (if Target(old(location), authenticated) != old(location) then [HOME] else [])
      ensures rendered == old(rendered) + [Shown(old(location), authenticated)]
      ensures authenticated == old(authenticated)
      decreases Depth(location), 0
    {
      var route := Lookup(location);
      if route.authRequired && !authenticated {
        RedirectSettles(location, authenticated);
        NavigateTo(HOME);
        return;
      }
      assert Target(location, authenticated) == location;
      rendered := rendered + [route.view];
    }
  }
}
