/** The client-side layout of `src/app/components`, which only the home
    page `/` renders: an authentication check that reads the access token
    from `localStorage` whenever the path changes, the rule that decides
    what is rendered, the logout handler, and the sidebar menu. */
module AppLayout {
  import opened Base
  import Storage
  import Middleware
  import Navigation

  const LoginPath: string := "/login"

  /** The `isLoggedIn` and `isLoading` state of the layout. */
  datatype AuthState = AuthState(isLoggedIn: bool, isLoading: bool)

  /** Before the first check: not logged in, loading. */
  const InitialAuth: AuthState := AuthState(false, true)

  /** The state after `checkAuth`, and the `router.push` it issued, if any. */
  datatype Checked = Checked(auth: AuthState, push: Option<string>)

  /** `checkAuth`: logged in exactly when the stored access token is
      truthy, no longer loading, and sent to the login page exactly when
      there is no token and the path is not already the login page. Unlike
      the middleware, it never sends anyone away from the login page. */
  function CheckAuth(st: Storage.Store, pathname: string): (r: Checked)
    ensures r.auth.isLoggedIn <==> Truthy(Storage.GetItem(st, Storage.AccessKey))
    ensures !r.auth.isLoading
    ensures r.push.Some? <==> !Truthy(Storage.GetItem(st, Storage.AccessKey)) && pathname != LoginPath
    ensures r.push.Some? ==> r.push.value == LoginPath
  {
    var token := Storage.GetItem(st, Storage.AccessKey);
    var push := if !Truthy(token) && pathname != LoginPath then Some(LoginPath) else None;
    Checked(AuthState(Truthy(token), false), push)
  }

  /** What the layout renders: its children alone, nothing, or the full
      chrome (sidebar with its highlighted entries, header, children). */
  datatype View = Bare | Blank | Chrome(active: seq<Navigation.MenuItem>)

  /** The render rule: while loading or on the login page the children
      alone; otherwise nothing when not logged in; otherwise the chrome,
      whose sidebar is the menu as the source lists it, with the entries
      whose path is the current one highlighted. */
  function Render(auth: AuthState, pathname: string): (v: View)
    ensures v == Bare <==> auth.isLoading || pathname == LoginPath
    ensures v == Blank <==> !auth.isLoading && !auth.isLoggedIn && pathname != LoginPath
    ensures v.Chrome? <==> !auth.isLoading && auth.isLoggedIn && pathname != LoginPath
    ensures v.Chrome? ==>
      forall it :: it in v.active <==> it in MenuAsWritten && it.path == pathname
  {
    if auth.isLoading || pathname == LoginPath then Bare
    else if !auth.isLoggedIn && pathname != LoginPath then Blank
    else Chrome(Navigation.ActiveItems(MenuAsWritten, pathname))
  }

  /** Once the check has run, the chrome appears exactly when a token is
      stored and the path is not the login page; the login page always
      shows its children; a missing token shows nothing (and redirects). */
  lemma RenderAfterCheck(st: Storage.Store, pathname: string)
    ensures var c := CheckAuth(st, pathname);
      && (Render(c.auth, pathname).Bare? <==> pathname == LoginPath)
      && (Render(c.auth, pathname).Blank? <==> c.push.Some?)
      && (Render(c.auth, pathname).Chrome? <==>
            Truthy(Storage.GetItem(st, Storage.AccessKey)) && pathname != LoginPath)
  {
  }

  /** Before the first check the children are rendered on every path. */
  lemma ChildrenWhileLoading(pathname: string)
    ensures Render(InitialAuth, pathname) == Bare
  {
  }

  /** The client check agrees with the middleware's decision function on
      sending visitors without a token to the login page (when the cookie
      holds the same token as `localStorage`), and never follows its
      redirect from the login page to the home page. The deployed guard
      runs that function only inside its matcher: there the two agree,
      while outside it a visitor without a token passes the guard and is
      sent to the login page by the client check alone. */
  lemma AgreesWithMiddleware(st: Storage.Store, pathname: string)
    ensures var token := Storage.GetItem(st, Storage.AccessKey);
      && (CheckAuth(st, pathname).push == Some(LoginPath) <==>
            Middleware.Decide(pathname, token) == Middleware.Redirect(Middleware.LoginPath))
      && (Middleware.Decide(pathname, token) == Middleware.Redirect(Middleware.HomePath) ==>
            CheckAuth(st, pathname).push == None)
    ensures var token := Storage.GetItem(st, Storage.AccessKey);
      Middleware.InScope(pathname) ==>
        (CheckAuth(st, pathname).push == Some(LoginPath) <==>
           Middleware.Guard(pathname, token) == Middleware.Redirect(Middleware.LoginPath))
    ensures var token := Storage.GetItem(st, Storage.AccessKey);
      !Middleware.InScope(pathname) ==>
        (Middleware.Guard(pathname, token) == Middleware.Next &&
         (CheckAuth(st, pathname).push.Some? <==> !Truthy(token)))
  {
  }

  /** The result of `handleLogout`. */
  datatype LoggedOut = LoggedOut(store: Storage.Store, push: string)

  /** `handleLogout`: both tokens are removed, every other key is kept,
      and the router is sent to the login page. */
  function Logout(st: Storage.Store): (r: LoggedOut)
    ensures Storage.GetItem(r.store, Storage.AccessKey) == None
    ensures Storage.GetItem(r.store, Storage.RefreshKey) == None
    ensures forall k :: k != Storage.AccessKey && k != Storage.RefreshKey ==>
      Storage.GetItem(r.store, k) == Storage.GetItem(st, k)
    ensures r.push == LoginPath
  {
    LoggedOut(Storage.ClearTokens(st), LoginPath)
  }

  /** After logout every page but the login page renders nothing and
      redirects to the login page. */
  lemma LogoutLocksOut(st: Storage.Store, pathname: string)
    requires pathname != LoginPath
    ensures var c := CheckAuth(Logout(st).store, pathname);
      c.push == Some(LoginPath) && Render(c.auth, pathname) == Blank
  {
  }

  // ---------------------------------------------------------------------
  // Sidebar menu
  // ---------------------------------------------------------------------

  /** The menu as the source lists it: the mileage entry points to
      `/kilometre`, a path with no page behind it. */
  const MenuAsWritten: seq<Navigation.MenuItem> := [
    Navigation.MenuItem("/", "Ana Sayfa"),
    Navigation.MenuItem("/araclar", "Araçlar"),
    Navigation.MenuItem("/suruculer", "Sürücüler"),
    Navigation.MenuItem("/gorevler", "Görevler"),
    Navigation.MenuItem("/kilometre", "Kilometre Takibi"),
    Navigation.MenuItem("/harcamalar", "Harcamalar")
  ]

  /** The menu with the mileage entry pointing at the mileage page,
      `/kilometre-kayitlari`, as the other layout has it. */
  const Menu: seq<Navigation.MenuItem> := [
    Navigation.MenuItem("/", "Ana Sayfa"),
    Navigation.MenuItem("/araclar", "Araçlar"),
    Navigation.MenuItem("/suruculer", "Sürücüler"),
    Navigation.MenuItem("/gorevler", "Görevler"),
    Navigation.MenuItem("/kilometre-kayitlari", "Kilometre Takibi"),
    Navigation.MenuItem("/harcamalar", "Harcamalar")
  ]

  /** As written, the mileage page highlights no entry, so the chrome a
      logged-in visitor sees there has nothing highlighted, and the mileage
      entry links to a path that is not a page. */
  lemma MenuAsWrittenMissesMileagePage(pathname: string)
    requires pathname == Navigation.Pages[5]
    ensures Navigation.ActiveItems(MenuAsWritten, pathname) == []
    ensures Render(AuthState(true, false), pathname) == Chrome([])
    ensures MenuAsWritten[4].path !in Navigation.Pages
  {
    assert pathname == "/kilometre-kayitlari";
    Navigation.ActiveNone(MenuAsWritten, pathname);
  }

  /** The as-written menu therefore fails the highlighting property. */
  lemma MenuAsWrittenFailsHighlighting()
    ensures !Navigation.HighlightsEachPageOnce(MenuAsWritten)
  {
    MenuAsWrittenMissesMileagePage(Navigation.Pages[5]);
  }

  /** With the corrected entry, every page highlights exactly one entry:
      the one whose path is the page's own. */
  lemma MenuHighlightsPage(pathname: string)
    requires pathname in Navigation.Pages
    ensures Navigation.ActiveItems(Menu, pathname) == [Navigation.MenuItem(pathname, Menu[MenuIndex(pathname)].title)]
  {
    var j := MenuIndex(pathname);
    assert forall k :: 0 <= k < |Menu| && k != j ==> Menu[k].path != pathname;
    Navigation.ActiveSingle(Menu, pathname, j);
  }

  /** The position of a page's entry in the corrected menu. */
  function MenuIndex(pathname: string): (j: nat)
    requires pathname in Navigation.Pages
    ensures j < |Menu| && Menu[j].path == pathname
  {
    if pathname == "/" then 0
    else if pathname == "/araclar" then 1
    else if pathname == "/suruculer" then 2
    else if pathname == "/gorevler" then 3
    else if pathname == "/kilometre-kayitlari" then 4
    else 5
  }

  /** Every page highlights exactly one entry of the corrected menu. */
  lemma MenuHighlightsEachPage()
    ensures Navigation.HighlightsEachPageOnce(Menu)
  {
    forall i | 0 <= i < |Navigation.Pages|
      ensures |Navigation.ActiveItems(Menu, Navigation.Pages[i])| == 1
    {
      MenuHighlightsPage(Navigation.Pages[i]);
    }
  }
}
