/** The root component: it resolves the session with `GET /api/auth/me`,
    shows a spinner while that first check is loading, and otherwise lays out
    the chrome (Navbar, a sidebar, RightPanel) around a route table that
    renders a page or redirects according to the session. */
module App {
  import opened Common

  datatype User = User(username: string, fullName: string)

  /** The body of `GET /api/auth/me`: the user record and its `error` field. */
  datatype MeBody = MeBody(error: Option<string>, user: User)

  datatype Session = Loading | Anonymous | Authenticated(user: User)

  /** The session query's `queryFn` with `retry: false`: one attempt, and every
      failure (network, unparsable body, an `error` field, a non-ok status)
      settles to the anonymous session instead of an error. */
  function ResolveSession(reply: Reply<MeBody>): (s: Session)
    ensures !s.Loading?
    ensures s.Authenticated? <==> reply.Answered? && reply.ok && !Truthy(reply.body.error)
    ensures s.Authenticated? ==> s.user == reply.body.user
  {
    match reply
    case Threw(_, _) => Anonymous
    case Answered(ok, body) =>
      if Truthy(body.error) then Anonymous
      // a non-ok status throws, and the catch turns that into null as well
      else if !ok then Anonymous
      else Authenticated(body.user)
  }

  // ---------------------------------------------------------------------------
  // Routes and paths

  datatype Route = Home | Login | Signup | Notifications | Profile(username: string)

  const ProfilePrefix := "/profile/"

  function PathOf(r: Route): string {
    match r
    case Home => "/"
    case Login => "/login"
    case Signup => "/signup"
    case Notifications => "/notifications"
    case Profile(u) => ProfilePrefix + u
  }

  /** A `:username` parameter is one non-empty path segment. */
  predicate Segment(s: string) {
    |s| > 0 && '/' !in s
  }

  predicate Addressable(r: Route) {
    r.Profile? ==> Segment(r.username)
  }

  /** Exact matching of a pathname against the five route patterns. */
  function Match(path: string): (r: Option<Route>)
    ensures r.Some? ==> Addressable(r.value) && PathOf(r.value) == path
  {
    if path == "/" then Some(Home)
    else if path == "/login" then Some(Login)
    else if path == "/signup" then Some(Signup)
    else if path == "/notifications" then Some(Notifications)
    else if |path| > |ProfilePrefix| && path[..|ProfilePrefix|] == ProfilePrefix
         && Segment(path[|ProfilePrefix|..]) then
      assert path == ProfilePrefix + path[|ProfilePrefix|..];
      Some(Profile(path[|ProfilePrefix|..]))
    else None
  }

  /** Every route is reached by its own path, and by no other route's path. */
  lemma MatchPathOf(r: Route)
    requires Addressable(r)
    ensures Match(PathOf(r)) == Some(r)
  {
    if r.Profile? {
      var p := PathOf(r);
      assert p[..|ProfilePrefix|] == ProfilePrefix;
      assert p[|ProfilePrefix|..] == r.username;
      assert p[1] == 'p';
      assert p != "/" && p != "/login" && p != "/signup" && p != "/notifications";
    }
  }

  // ---------------------------------------------------------------------------
  // The route table

  datatype View =
    | HomePage | NoAuthHome | LoginPage | SignUpPage | NotificationPage
    | ProfilePage(username: string)

  datatype Element = Show(view: View) | Redirect(to: string)

  /** Who may see a route: everyone, only anonymous visitors, only members. */
  datatype Access = Open | GuestsOnly | MembersOnly

  function AccessOf(r: Route): Access {
    match r
    case Home => Open
    case Login | Signup => GuestsOnly
    case Notifications | Profile(_) => MembersOnly
  }

  predicate Permits(a: Access, signedIn: bool) {
    match a
    case Open => true
    case GuestsOnly => !signedIn
    case MembersOnly => signedIn
  }

  /** Where a refused visitor is sent. */
  function FallbackOf(a: Access): string {
    match a
    case Open => "/"
    case GuestsOnly => "/"
    case MembersOnly => "/login"
  }

  /** The route whose page a view is. */
  function RouteOfView(v: View): Route {
    match v
    case HomePage | NoAuthHome => Home
    case LoginPage => Login
    case SignUpPage => Signup
    case NotificationPage => Notifications
    case ProfilePage(u) => Profile(u)
  }

  /** The `<Routes>` table: the element of each route, given whether `authUser`
      is set. */
  function RouteElement(signedIn: bool, r: Route): (e: Element)
    ensures e.Show? <==> Permits(AccessOf(r), signedIn)
    ensures e.Show? ==> RouteOfView(e.view) == r
    ensures e.Show? && r.Home? ==> (e.view == HomePage <==> signedIn)
    ensures e.Redirect? ==> e.to == FallbackOf(AccessOf(r))
  {
    match r
    case Home => Show(if signedIn then HomePage else NoAuthHome)
    case Login => if !signedIn then Show(LoginPage) else Redirect("/")
    case Signup => if !signedIn then Show(SignUpPage) else Redirect("/")
    case Notifications => if signedIn then Show(NotificationPage) else Redirect("/login")
    case Profile(u) => if signedIn then Show(ProfilePage(u)) else Redirect("/login")
  }

  // ---------------------------------------------------------------------------
  // The whole screen

  datatype Sidebar = NoSidebar | MemberSidebar | GuestSidebar

  /** What `<Routes>` renders: a matched route's element, or nothing. */
  datatype Outlet = Routed(element: Element) | Unrouted

  datatype Screen =
    | Spinner
    | Shell(navbar: bool, sidebar: Sidebar, outlet: Outlet, rightPanel: bool)

  /** `hideSidebar`: the sidebar is left out on the two auth forms. */
  predicate HideSidebar(pathname: string) {
    pathname == "/login" || pathname == "/signup"
  }

  function Render(s: Session, pathname: string): (screen: Screen)
    ensures screen.Spinner? <==> s.Loading?
    ensures screen.Shell? ==> (screen.navbar <==> s.Authenticated?)
    ensures screen.Shell? ==> (screen.rightPanel <==> s.Authenticated?)
    ensures screen.Shell? ==> (screen.sidebar.NoSidebar? <==> HideSidebar(pathname))
    ensures screen.Shell? && !HideSidebar(pathname) ==>
              (screen.sidebar.MemberSidebar? <==> s.Authenticated?)
    ensures screen.Shell? ==> (screen.outlet.Unrouted? <==> Match(pathname).None?)
    ensures screen.Shell? && Match(pathname).Some? ==>
              screen.outlet.element == RouteElement(s.Authenticated?, Match(pathname).value)
  {
    if s.Loading? then Spinner
    else
      var signedIn := s.Authenticated?;
      var sidebar :=
        if HideSidebar(pathname) then NoSidebar
        else if signedIn then MemberSidebar else GuestSidebar;
      var outlet :=
        match Match(pathname)
        case None => Unrouted
        case Some(r) => Routed(RouteElement(signedIn, r));
      Shell(signedIn, sidebar, outlet, signedIn)
  }

  /** A redirect always lands on a route that renders for the same session. */
  lemma NoRedirectLoop(s: Session, pathname: string)
    requires Render(s, pathname).Shell?
    requires Render(s, pathname).outlet.Routed? && Render(s, pathname).outlet.element.Redirect?
    ensures var next := Render(s, Render(s, pathname).outlet.element.to);
            next.Shell? && next.outlet.Routed? && next.outlet.element.Show?
  {
  }

  /** Under the exact matching of `Match`, the sidebar test on the raw
      pathname picks out exactly the login and signup routes. */
  lemma HideSidebarOnAuthRoutes(pathname: string)
    ensures HideSidebar(pathname) <==> Match(pathname) == Some(Login) || Match(pathname) == Some(Signup)
  {
  }

  /** Under the exact matching of `Match`, the login and signup forms are
      never shown beside a sidebar. */
  lemma AuthFormsWithoutSidebar(s: Session, pathname: string)
    requires Render(s, pathname).Shell? && Render(s, pathname).outlet.Routed?
    requires Render(s, pathname).outlet.element in {Show(LoginPage), Show(SignUpPage)}
    ensures Render(s, pathname).sidebar == NoSidebar
  {
  }

  /** Member pages are shown only to an authenticated session, and the auth
      forms only to an anonymous one. */
  lemma PagesFollowSession(s: Session, pathname: string)
    requires Render(s, pathname).Shell? && Render(s, pathname).outlet.Routed?
    requires Render(s, pathname).outlet.element.Show?
    ensures var v := Render(s, pathname).outlet.element.view;
            (v.HomePage? || v.NotificationPage? || v.ProfilePage?) <==> s.Authenticated?
  {
  }

  /** After logout, a session check answered with a non-ok status leaves the
      visitor anonymous, and the member pages send them to the login form. */
  lemma LoggedOutVisitorRedirected(reply: Reply<MeBody>)
    requires reply.Answered? && !reply.ok
    ensures ResolveSession(reply) == Anonymous
    ensures Render(ResolveSession(reply), "/notifications").outlet == Routed(Redirect("/login"))
    ensures Render(ResolveSession(reply), "/profile/alice").outlet == Routed(Redirect("/login"))
  {
  }

  // ---------------------------------------------------------------------------
  // Logout

  /** Whether the awaited `fetch` resolved (with any status) or rejected. */
  datatype FetchOutcome = Rejected | Resolved(ok: bool)

  const LogoutEndpoint := "/api/auth/logout"

  /** `handleLogout`: the logout request, then, once it has completed, one
      refetch of the session. A rejected request throws out of the handler
      before the refetch. */
  function Logout(outcome: FetchOutcome): (events: seq<Event>)
    ensures |events| >= 1 && events[0] == Request(LogoutEndpoint, NoPayload)
    ensures |events| == (if outcome.Resolved? then 2 else 1)
    ensures forall i :: 1 <= i < |events| ==> events[i] == Refetch(AuthUserKey)
  {
    [Request(LogoutEndpoint, NoPayload)]
    + (if outcome.Resolved? then [Refetch(AuthUserKey)] else [])
  }
}
