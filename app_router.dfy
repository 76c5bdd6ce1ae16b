/** The route table: what each pathname renders, with the private pages behind the guard. */
module AppRouter {
  import opened Options
  import opened Routes
  import opened ProtectedRoute
  import opened JsText

  datatype Page = LoginScreen | RegistrationScreen | DashboardPage | ProfilePage | SettingsPage

  /** What a `<Route>` element is: a page, possibly wrapped in the guard, or a `<Navigate>`. */
  datatype Element = PageElement(page: Page, guarded: bool) | NavigateTo(to: string, replace: bool)

  /** The pages a signed-out user may see. */
  predicate PublicPage(p: Page) {
    p == LoginScreen || p == RegistrationScreen
  }

  /** `path` without the slashes at its end. */
  function DropTrailingSlashes(path: string): (r: string)
    ensures r <= path
    ensures r == "" || r[|r| - 1] != '/'
    ensures forall i :: |r| <= i < |path| ==> path[i] == '/'
  {
    if path != "" && path[|path| - 1] == '/' then DropTrailingSlashes(path[..|path| - 1]) else path
  }

  /**
   * The pathname as a `<Route path>` pattern compares it: a route without `caseSensitive`
   * matches its pattern case-insensitively, and any run of slashes may follow it. The
   * patterns are ASCII, and a case-insensitive JavaScript pattern never folds a non-ASCII
   * character onto an ASCII one, so lower-casing the ASCII letters is exact here.
   */
  function Canonical(path: string): (c: string)
    ensures |c| <= |path|
    ensures forall i :: 0 <= i < |c| ==> c[i] == LowerChar(path[i])
    ensures c == "" || c[|c| - 1] != '/'
    ensures forall i :: |c| <= i < |path| ==> path[i] == '/'
  {
    ToLower(DropTrailingSlashes(path))
  }

  /** The element matched for `path`: the five routes, "/" and the "*" fallback, both to /login. */
  function Resolve(path: string): (e: Element)
    ensures Canonical(path) == Login ==> e == PageElement(LoginScreen, false)
    ensures Canonical(path) == Register ==> e == PageElement(RegistrationScreen, false)
    ensures Canonical(path) == Dashboard ==> e == PageElement(DashboardPage, true)
    ensures Canonical(path) == Profile ==> e == PageElement(ProfilePage, true)
    ensures Canonical(path) == Settings ==> e == PageElement(SettingsPage, true)
    ensures Canonical(path) !in {Login, Register, Dashboard, Profile, Settings} ==> e == NavigateTo(Login, true)
    ensures e.PageElement? ==> (e.guarded <==> !PublicPage(e.page))
  {
    var c := Canonical(path);
    if c == Login then PageElement(LoginScreen, false)
    else if c == Register then PageElement(RegistrationScreen, false)
    else if c == Dashboard then PageElement(DashboardPage, true)
    else if c == Profile then PageElement(ProfilePage, true)
    else if c == Settings then PageElement(SettingsPage, true)
    else NavigateTo(Login, true)
  }

  /** A lower-case path without a trailing slash is already canonical. */
  lemma CanonicalFixed(path: string)
    requires path == "" || path[|path| - 1] != '/'
    requires forall i :: 0 <= i < |path| ==> !('A' <= path[i] <= 'Z')
    ensures Canonical(path) == path
  {
  }

  /** Spelling a route in capitals or with a trailing slash reaches the same route. */
  lemma {:induction false} CaseAndSlashTolerant()
    ensures Resolve("/Dashboard") == PageElement(DashboardPage, true)
    ensures Resolve("/dashboard/") == PageElement(DashboardPage, true)
    ensures Resolve("/LOGIN") == PageElement(LoginScreen, false)
    ensures Resolve("/dashboard/x") == NavigateTo(Login, true)
  {
    assert DropTrailingSlashes("/dashboard/") == Dashboard by {
      assert "/dashboard/"[..|"/dashboard/"| - 1] == Dashboard;
    }
    assert Canonical("/Dashboard") == Dashboard;
    assert Canonical("/LOGIN") == Login;
    assert Canonical("/dashboard/x")[11] == 'x';
  }

  /** The outcome of visiting `path` with the stored flag: a page, or a redirect. */
  datatype Outcome = Shows(page: Page) | Redirects(to: string, replace: bool)

  function Visit(path: string, flag: Option<string>): (o: Outcome)
    ensures o.Shows? ==> PublicPage(o.page) || Authenticated(flag)
    ensures o.Redirects? ==> o.to == Login && o.replace
  {
    match Resolve(path)
    case NavigateTo(to, replace) => Redirects(to, replace)
    case PageElement(page, guarded) =>
      if !guarded then Shows(page)
      else
        match Guard(flag, page)
        case Children(p) => Shows(p)
        case RedirectTo(to, replace) => Redirects(to, replace)
  }

  /** Every visit ends on a page after at most one redirect, which lands on the login screen. */
  lemma VisitSettles(path: string, flag: Option<string>)
    ensures Visit(path, flag).Redirects? ==> Visit(Visit(path, flag).to, flag) == Shows(LoginScreen)
  {
  }

  /** Signed in, each private path shows its page; signed out, each sends the user to the login screen. */
  lemma PrivatePages(flag: Option<string>)
    ensures Authenticated(flag) ==>
      Visit(Dashboard, flag) == Shows(DashboardPage) && Visit(Profile, flag) == Shows(ProfilePage)
      && Visit(Settings, flag) == Shows(SettingsPage)
    ensures !Authenticated(flag) ==>
      Visit(Dashboard, flag) == Redirects(Login, true) && Visit(Profile, flag) == Redirects(Login, true)
      && Visit(Settings, flag) == Redirects(Login, true)
  {
  }

  /** Paths with metadata but no route, and "/", fall back to the login redirect. */
  lemma UnroutedPaths(flag: Option<string>)
    ensures Visit(ProviderDashboard, flag) == Redirects(Login, true)
    ensures Visit(WellnessDashboard, flag) == Redirects(Login, true)
    ensures Visit(Home, flag) == Redirects(Login, true)
  {
    CanonicalFixed(ProviderDashboard);
    CanonicalFixed(WellnessDashboard);
  }
}
