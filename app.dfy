/** The application shell: the session (user, persisted token, default `Authorization`
    header, start-up loading flag) and the table of routes guarded by it. */
module App {
  import opened Remote

  // ---------------------------------------------------------------------------
  // Routes

  /** The components the route table can render. */
  datatype Screen = EditorScreen | AuthScreen | SnippetsScreen | HistoryScreen | SharedScreen(token: string)

  /** A route's element: render a component, or redirect with `<Navigate to=...>`. */
  datatype Element = Show(screen: Screen) | Navigate(to: string)

  /** A screen only a signed-in user may see. */
  predicate Protected(s: Screen) {
    s.EditorScreen? || s.SnippetsScreen? || s.HistoryScreen?
  }

  /** The value of the `:token` segment when `path` is `/share/:token`: one non-empty
      path segment, so it holds no '/'. */
  function ShareTokenOf(path: string): (t: Option<string>)
    ensures t.Some? <==> |path| > |SharePrefix| && path[..|SharePrefix|] == SharePrefix
                         && '/' !in path[|SharePrefix|..]
    ensures t.Some? ==> path == SharePrefix + t.value && t.value != "" && '/' !in t.value
  {
    if |path| > |SharePrefix| && path[..|SharePrefix|] == SharePrefix && '/' !in path[|SharePrefix|..]
    then Some(path[|SharePrefix|..])
    else None
  }

  /** The `<Routes>` table, for the current path and whether a user is signed in. */
  function Route(path: string, signedIn: bool): (e: Element)
    // the editor, snippet list and history render for a signed-in user and send anyone else to /auth
    ensures path in {"/", "/snippets", "/history"} ==> (e.Show? <==> signedIn)
    ensures path in {"/", "/snippets", "/history"} && !signedIn ==> e == Navigate("/auth")
    ensures signedIn && path == "/" ==> e == Show(EditorScreen)
    ensures signedIn && path == "/snippets" ==> e == Show(SnippetsScreen)
    ensures signedIn && path == "/history" ==> e == Show(HistoryScreen)
    // the form renders for an anonymous visitor only; a signed-in user is sent to /
    ensures path == "/auth" ==> e == if signedIn then Navigate("/") else Show(AuthScreen)
    // a shared link opens whether or not anyone is signed in
    ensures ShareTokenOf(path).Some? ==> e == Show(SharedScreen(ShareTokenOf(path).value))
    // every other path goes to /
    ensures path !in {"/", "/auth", "/snippets", "/history"} && ShareTokenOf(path).None? ==> e == Navigate("/")
    // nobody signed out sees a protected screen, nobody signed in sees the form
    ensures e.Show? && Protected(e.screen) ==> signedIn
    ensures e == Show(AuthScreen) ==> !signedIn
  {
    assert ShareTokenOf("/snippets").None? by { assert "/snippets"[..|SharePrefix|][2] != SharePrefix[2]; }
    assert ShareTokenOf("/history").None? by { assert "/history"[..|SharePrefix|][2] != SharePrefix[2]; }
    if path == "/" then (if signedIn then Show(EditorScreen) else Navigate("/auth"))
    else if path == "/auth" then (if signedIn then Navigate("/") else Show(AuthScreen))
    else if path == "/snippets" then (if signedIn then Show(SnippetsScreen) else Navigate("/auth"))
    else if path == "/history" then (if signedIn then Show(HistoryScreen) else Navigate("/auth"))
    else if ShareTokenOf(path).Some? then Show(SharedScreen(ShareTokenOf(path).value))
    else Navigate("/")
  }

  /** The redirects never loop: from any path, at most two redirects reach a rendered screen. */
  lemma RedirectsSettle(path: string, signedIn: bool)
    ensures var e := Route(path, signedIn);
            e.Show?
            || Route(e.to, signedIn).Show?
            || Route(Route(e.to, signedIn).to, signedIn).Show?
  {
  }

  /** The path of a link built by `ShareUrl` opens the shared view of the same token, for a
      visitor signed in or not, as long as the token is one path segment. */
  lemma SharedLinkOpensSharedView(origin: string, token: string, signedIn: bool)
    requires token != "" && '/' !in token
    ensures Route(ShareUrl(origin, token)[|origin|..], signedIn) == Show(SharedScreen(token))
  {
  }

  // ---------------------------------------------------------------------------
  // The session

  /** `Bearer <token>`, the value of the default `Authorization` header. */
  function Bearer(token: string): string {
    "Bearer " + token
  }

  /** What `App` renders: the start-up spinner, or the route table's element. */
  datatype AppView = Spinner | Routed(element: Element)

  /** The session state: `user`, the token persisted in browser storage, the HTTP client's
      default `Authorization` header (None when deleted) and `loading`. */
  class Session {
    var user: Option<User>
    var storedToken: Option<string>
    var authHeader: Option<string>
    var loading: bool

    /** The header carries the persisted token. */
    predicate HeaderFromStore()
      reads this
    {
      storedToken.Some? && authHeader == Some(Bearer(storedToken.value))
    }

    /** Whenever a header is attached it is the persisted token's, and a signed-in user
        always has it attached: every request made while signed in carries the credential. */
    predicate Valid()
      reads this
    {
      && (authHeader.Some? ==> HeaderFromStore())
      && (user.Some? ==> HeaderFromStore())
    }

    /** A fresh page load, with whatever token the browser had persisted. */
    constructor (persisted: Option<string>)
      ensures Valid()
      ensures user.None? && storedToken == persisted && authHeader.None? && loading
    {
      user, storedToken, authHeader, loading := None, persisted, None, true;
    }

    /** The start-up effect: with a (non-empty) persisted token, attach it and ask for the
        profile (`fetchProfile`); without one, stop loading with nobody signed in. */
    method Startup() returns (fetchProfile: bool)
      requires Valid()
      modifies this
      ensures Valid()
      ensures fetchProfile <==> old(storedToken).Some? && old(storedToken).value != ""
      ensures fetchProfile ==> HeaderFromStore() && loading == old(loading)
      ensures !fetchProfile ==> authHeader == old(authHeader) && !loading
      ensures user == old(user) && storedToken == old(storedToken)
    {
      fetchProfile := storedToken.Some? && storedToken.value != "";
      if fetchProfile {
        authHeader := Some(Bearer(storedToken.value));
      } else {
        loading := false;
      }
    }

    /** `fetchUserProfile` once the reply `o` arrived. It is only started right after the
        start-up effect attached the persisted token. A success signs the user in, a thrown
        request signs out, any other reply changes nothing; loading ends in every case. */
    method CompleteProfile(o: Outcome<User>)
      requires Valid() && HeaderFromStore()
      modifies this
      ensures Valid()
      ensures !loading
      ensures o.Ok? ==> user == Some(o.data) && storedToken == old(storedToken) && authHeader == old(authHeader)
      ensures o.NotOk? ==> user == old(user) && storedToken == old(storedToken) && authHeader == old(authHeader)
      ensures o.Threw() ==> user.None? && storedToken.None? && authHeader.None?
    {
      if o.Ok? {
        user := Some(o.data);
      } else if o.Threw() {
        Logout();
      }
      loading := false;
    }

    /** `handleLogin`: sign the user in, persist the token and attach it to every request. */
    method Login(u: User, token: string)
      modifies this
      ensures Valid()
      ensures user == Some(u) && storedToken == Some(token) && authHeader == Some(Bearer(token))
      ensures loading == old(loading)
    {
      user := Some(u);
      storedToken := Some(token);
      authHeader := Some(Bearer(token));
    }

    /** `handleLogout`: forget the user, the persisted token and the header. */
    method Logout()
      modifies this
      ensures Valid()
      ensures user.None? && storedToken.None? && authHeader.None?
      ensures loading == old(loading)
    {
      user := None;
      storedToken := None;
      authHeader := None;
    }

    /** What is rendered for `path`: nothing but the spinner while loading. */
    function View(path: string): (v: AppView)
      reads this
      ensures loading <==> v == Spinner
      ensures !loading ==> v == Routed(Route(path, user.Some?))
    {
      if loading then Spinner else Routed(Route(path, user.Some?))
    }
  }

  /** Logging out twice leaves the same state as logging out once. */
  method LogoutTwice(s: Session)
    modifies s
    ensures s.user.None? && s.storedToken.None? && s.authHeader.None? && s.loading == old(s.loading)
  {
    s.Logout();
    s.Logout();
  }
}
