/** The App component: the session (`token`, `user`, `loading`), the browser's
    "token" storage slot, the effect that hydrates the user from a stored token,
    `login`, `logout`, and the route table that decides between rendering a
    page and redirecting. */
module Session {
  import opened Wrappers
  import opened Text
  import opened Domain

  /** The answer of `GET /auth/me` for the current bearer token: the user record,
      or any failure (the component does not tell failures apart). */
  datatype Fetch = Ok(user: User) | Err

  /** The pages the router can show. */
  datatype Page =
    | LandingPage | LoginPage | RegisterPage
    | DashboardPage | BloodRequestsPage | CreateRequestPage
    | MedicalFacilitiesPage | DonationHistoryPage | ProfilePage

  /** What a route renders: its page, or a `<Navigate>` to another path. */
  datatype Element = Render(page: Page) | Navigate(to: string)

  /** What the App renders: the loading spinner, or the router's choice for the
      current path (`None` when no route matches and nothing is rendered). */
  datatype Screen = Spinner | Routed(element: Option<Element>)

  /** Routes reachable by anyone, only without a user, or only with one. */
  datatype Access = Public | GuestOnly | Protected

  const GuestPaths: set<string> := {"/login", "/register"}
  const ProtectedPaths: set<string> :=
    {"/dashboard", "/blood-requests", "/create-request", "/medical-facilities", "/donation-history", "/profile"}

  /** The route table: which page a path names. */
  function PageAt(path: string): Option<Page>
  {
    match path
    case "/" => Some(LandingPage)
    case "/login" => Some(LoginPage)
    case "/register" => Some(RegisterPage)
    case "/dashboard" => Some(DashboardPage)
    case "/blood-requests" => Some(BloodRequestsPage)
    case "/create-request" => Some(CreateRequestPage)
    case "/medical-facilities" => Some(MedicalFacilitiesPage)
    case "/donation-history" => Some(DonationHistoryPage)
    case "/profile" => Some(ProfilePage)
    case _ => None
  }

  function AccessOf(p: Page): Access
  {
    match p
    case LandingPage => Public
    case LoginPage | RegisterPage => GuestOnly
    case _ => Protected
  }

  /** The element each route's guard chooses. The guards test `user` only. */
  function RouteElement(path: string, user: Option<User>): (e: Option<Element>)
    ensures path == "/" ==> e == Some(Render(LandingPage))
    ensures path in GuestPaths ==> e.Some? && (e.value.Render? <==> user.None?)
    ensures path in GuestPaths && user.Some? ==> e == Some(Navigate("/dashboard"))
    ensures path in ProtectedPaths ==> e.Some? && (e.value.Render? <==> user.Some?)
    ensures path in ProtectedPaths && user.None? ==> e == Some(Navigate("/login"))
    ensures e.None? <==> path !in GuestPaths + ProtectedPaths + {"/"}
    ensures e.Some? && e.value.Render? ==> PageAt(path) == Some(e.value.page)
  {
    match PageAt(path)
    case None => None
    case Some(p) =>
      match AccessOf(p)
      case Public => Some(Render(p))
      case GuestOnly => if user.None? then Some(Render(p)) else Some(Navigate("/dashboard"))
      case Protected => if user.Some? then Some(Render(p)) else Some(Navigate("/login"))
  }

  /** The App's render: only the spinner while loading, the router otherwise. */
  function View(loading: bool, user: Option<User>, path: string): (s: Screen)
    ensures loading <==> s == Spinner
    ensures !loading ==> s.element == RouteElement(path, user)
  {
    if loading then Spinner else Routed(RouteElement(path, user))
  }

  class App {
    /** The browser's `localStorage` slot "token". */
    var slot: Option<string>
    var token: Option<string>
    var user: Option<User>
    var loading: bool
    /** The `[token]` dependency the effect last ran with; `None` before the
        first run after mounting. */
    var lastDeps: Option<Option<string>>

    /** Every operation writes the slot and `token` together. */
    ghost predicate Valid()
      reads this
    {
      token == slot
    }

    /** React runs the effect after a render whose `[token]` differs from the
        one it last ran with, and always after the first render. */
    predicate EffectDue()
      reads this
    {
      lastDeps != Some(token)
    }

    function Screen(path: string): Screen
      reads this
    {
      View(loading, user, path)
    }

    /** Mounting: `token` starts as the stored slot, `user` as null and
        `loading` as true. */
    constructor (stored: Option<string>)
      ensures Valid() && EffectDue()
      ensures slot == stored && token == stored && user == None && loading
      ensures lastDeps == None
    {
      slot := stored;
      token := stored;
      user := None;
      loading := true;
      lastDeps := None;
    }

    /** `fetchUser`: on success the user is the response; on failure the slot
        is erased and `token` cleared, but `user` is left as it was. Either
        way `loading` ends false. */
    method FetchUser(response: Fetch)
      requires Valid()
      modifies this
      ensures Valid()
      ensures response.Ok? ==> user == Some(response.user) && token == old(token)
      ensures response.Err? ==> slot == None && token == None && user == old(user)
      ensures !loading && lastDeps == old(lastDeps)
    {
      match response {
        case Ok(u) =>
          user := Some(u);
        case Err =>
          slot := None;
          token := None;
      }
      loading := false;
    }

    /** The commit after a render: if `[token]` changed, the effect runs; it
        fetches the user when `token` is truthy and otherwise only clears
        `loading`. `fetched` tells whether the identity fetch was issued. */
    method Commit(response: Fetch) returns (fetched: bool)
      requires Valid()
      modifies this
      ensures Valid()
      ensures fetched <==> old(EffectDue()) && Truthy(old(token))
      ensures !old(EffectDue()) ==>
        slot == old(slot) && token == old(token) && user == old(user) &&
        loading == old(loading) && lastDeps == old(lastDeps)
      ensures old(EffectDue()) ==> lastDeps == Some(old(token)) && !loading
      ensures old(EffectDue()) && !Truthy(old(token)) ==>
        slot == old(slot) && token == old(token) && user == old(user)
      ensures fetched && response.Ok? ==>
        user == Some(response.user) && token == old(token) && slot == old(slot)
      ensures fetched && response.Err? ==>
        slot == None && token == None && user == old(user)
    {
      fetched := false;
      if EffectDue() {
        lastDeps := Some(token);
        if Truthy(token) {
          FetchUser(response);
          fetched := true;
        } else {
          loading := false;
        }
      }
    }

    /** `login(newToken, userData)`: the slot and `token` hold the new token
        and `user` the given record. */
    method Login(newToken: string, userData: User)
      requires Valid()
      modifies this
      ensures Valid()
      ensures slot == Some(newToken) && token == Some(newToken) && user == Some(userData)
      ensures loading == old(loading) && lastDeps == old(lastDeps)
    {
      slot := Some(newToken);
      token := Some(newToken);
      user := Some(userData);
    }

    /** `logout()`: the slot is erased and `token` and `user` are cleared. */
    method Logout()
      requires Valid()
      modifies this
      ensures Valid()
      ensures slot == None && token == None && user == None
      ensures loading == old(loading) && lastDeps == old(lastDeps)
    {
      slot := None;
      token := None;
      user := None;
    }
  }

  /** Starting with no stored token: the effect issues no fetch, loading ends,
      and a protected path redirects to the login page. */
  method StartWithoutToken(stored: Option<string>, response: Fetch, path: string)
    returns (fetched: bool, screen: Screen)
    requires !Truthy(stored)
    requires path in ProtectedPaths
    ensures !fetched
    ensures screen == Routed(Some(Navigate("/login")))
  {
    var app := new App(stored);
    assert app.Screen(path) == Spinner;
    fetched := app.Commit(response);
    screen := app.Screen(path);
  }

  /** While the first fetch is pending only the spinner renders, whatever the
      path; once the stored token is accepted the user is the fetched one and
      the login page redirects to the dashboard. */
  method StartWithAcceptedToken(t: string, u: User, path: string)
    returns (pending: Screen, fetched: bool, token: Option<string>, user: Option<User>, screen: Screen)
    requires t != ""
    ensures pending == Spinner
    ensures fetched && token == Some(t) && user == Some(u)
    ensures screen == View(false, Some(u), "/login")
    ensures screen == Routed(Some(Navigate("/dashboard")))
  {
    var app := new App(Some(t));
    pending := app.Screen(path);
    fetched := app.Commit(Ok(u));
    token, user := app.token, app.user;
    screen := app.Screen("/login");
  }

  /** A rejected stored token: the slot is erased and the session is
      anonymous; the effect then runs once more for the cleared token and
      issues no second fetch. */
  method StartWithRejectedToken(t: string, response: Fetch)
    returns (slot: Option<string>, token: Option<string>, user: Option<User>, refetched: bool, screen: Screen)
    requires t != ""
    ensures slot == None && token == None && user == None
    ensures !refetched
    ensures screen == Routed(Some(Navigate("/login")))
  {
    var app := new App(Some(t));
    var fetched := app.Commit(Err);
    assert app.EffectDue();
    refetched := app.Commit(response);
    slot, token, user := app.slot, app.token, app.user;
    screen := app.Screen("/dashboard");
  }

  /** `login` changes `[token]`, so the effect fetches the user again with the
      new token, and the fetched record replaces the one `login` stored. */
  method LoginRefetches(t: string, u: User, fetchedUser: User)
    returns (fetched: bool, user: Option<User>)
    requires t != ""
    ensures fetched && user == Some(fetchedUser)
  {
    var app := new App(None);
    var first := app.Commit(Err);
    app.Login(t, u);
    fetched := app.Commit(Ok(fetchedUser));
    user := app.user;
  }

  /** If the fetch that follows `login` fails, the slot and `token` are
      cleared while `user` stays set, and since the guards look at `user`
      only, protected pages still render and the login page still redirects. */
  method RejectedAfterLogin(t: string, u: User)
    returns (slot: Option<string>, token: Option<string>, user: Option<User>,
             dashboard: Screen, login: Screen)
    requires t != ""
    ensures slot == None && token == None && user == Some(u)
    ensures dashboard == Routed(Some(Render(DashboardPage)))
    ensures login == Routed(Some(Navigate("/dashboard")))
  {
    var app := new App(None);
    var first := app.Commit(Err);
    app.Login(t, u);
    var fetched := app.Commit(Err);
    slot, token, user := app.slot, app.token, app.user;
    dashboard := app.Screen("/dashboard");
    login := app.Screen("/login");
  }

  /** Logging out twice leaves the same state as logging out once. */
  method LogoutTwice(stored: Option<string>, response: Fetch, t: string, u: User)
    returns (once: (Option<string>, Option<string>, Option<User>, bool),
             twice: (Option<string>, Option<string>, Option<User>, bool))
    ensures once == twice == (None, None, None, false)
  {
    var app := new App(stored);
    var fetched := app.Commit(response);
    app.Login(t, u);
    app.Logout();
    once := (app.slot, app.token, app.user, app.loading);
    app.Logout();
    twice := (app.slot, app.token, app.user, app.loading);
  }
}
