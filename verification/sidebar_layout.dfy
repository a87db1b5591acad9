/** The layout of `src/components`: a sidebar that can be folded away,
    a menu, and a logout button that clears both `localStorage` and the
    cookies the middleware reads. */
module SidebarLayout {
  import opened Base
  import Storage
  import Middleware
  import Navigation
  import Api

  const LoginPath: string := "/login"

  /** The two browser stores the logout button touches. */
  datatype Browser = Browser(storage: Storage.Store, cookies: Storage.Store)

  /** The stores after logout and the page the browser is sent to. */
  datatype LoggedOut = LoggedOut(browser: Browser, location: string)

  /** The logout button: both tokens are removed from `localStorage`, both
      token cookies are expired, every other key and cookie is kept, and
      the browser is sent to the login page. */
  function Logout(b: Browser): (r: LoggedOut)
    ensures Storage.GetItem(r.browser.storage, Storage.AccessKey) == None
    ensures Storage.GetItem(r.browser.storage, Storage.RefreshKey) == None
    ensures Storage.GetItem(r.browser.cookies, Storage.AccessKey) == None
    ensures Storage.GetItem(r.browser.cookies, Storage.RefreshKey) == None
    ensures forall k :: k != Storage.AccessKey && k != Storage.RefreshKey ==>
      && Storage.GetItem(r.browser.storage, k) == Storage.GetItem(b.storage, k)
      && Storage.GetItem(r.browser.cookies, k) == Storage.GetItem(b.cookies, k)
    ensures r.location == LoginPath
  {
    var storage := Storage.RemoveItem(Storage.RemoveItem(b.storage, Storage.AccessKey), Storage.RefreshKey);
    var cookies := Storage.RemoveItem(Storage.RemoveItem(b.cookies, Storage.AccessKey), Storage.RefreshKey);
    LoggedOut(Browser(storage, cookies), LoginPath)
  }

  /** After this logout the middleware keeps the browser on the login
      page, and the next API request leaves without a bearer token. */
  lemma LogoutEndsSession(b: Browser, req: Api.Request)
    ensures var after := Logout(b).browser;
      && Middleware.Guard(Middleware.HomePath, Storage.GetItem(after.cookies, Storage.AccessKey))
           == Middleware.Redirect(Middleware.LoginPath)
      && Middleware.Guard(LoginPath, Storage.GetItem(after.cookies, Storage.AccessKey)) == Middleware.Next
      && Api.Authenticate(after.storage, req) == req
  {
  }

  /** The fold button: `setIsSidebarOpen(!isSidebarOpen)`. */
  function Toggle(open: bool): (r: bool)
    ensures r != open
  {
    !open
  }

  /** Folding twice gives back the sidebar as it was. */
  lemma ToggleTwice(open: bool)
    ensures Toggle(Toggle(open)) == open
  {
  }

  const Menu: seq<Navigation.MenuItem> := [
    Navigation.MenuItem("/", "Dashboard"),
    Navigation.MenuItem("/araclar", "Araçlar"),
    Navigation.MenuItem("/suruculer", "Sürücüler"),
    Navigation.MenuItem("/gorevler", "Görevler"),
    Navigation.MenuItem("/harcamalar", "Harcamalar"),
    Navigation.MenuItem("/kilometre-kayitlari", "Kilometre Kayıtları")
  ]

  /** Every page of the application highlights exactly one entry of this
      menu (an entry is active when the path equals its `href` exactly). */
  lemma MenuHighlightsEachPage()
    ensures Navigation.HighlightsEachPageOnce(Menu)
  {
    assert forall a, b :: 0 <= a < b < |Menu| ==> |Menu[a].path| != |Menu[b].path|;
    forall i | 0 <= i < |Navigation.Pages|
      ensures |Navigation.ActiveItems(Menu, Navigation.Pages[i])| == 1
    {
      assert Menu[i].path == Navigation.Pages[i];
      Navigation.ActiveSingle(Menu, Navigation.Pages[i], i);
    }
  }
}
