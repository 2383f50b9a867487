/** app/dashboard/layout.tsx: the frame around every dashboard page. It decides which
    navigation item is highlighted, turns away a visitor without a stored token, fetches
    the signed-in account, and logs out. */
module DashboardLayout {
  import opened Types
  import opened Text
  import ApiClient

  datatype MenuItem = MenuItem(name: string, href: string)

  const OVERVIEW_HREF := "/dashboard"

  const MENU_ITEMS: seq<MenuItem> := [
    MenuItem("Overview", "/dashboard"),
    MenuItem("Reports", "/dashboard/reports"),
    MenuItem("Tickets", "/dashboard/tickets"),
    MenuItem("Categories", "/dashboard/categories"),
    MenuItem("Locations", "/dashboard/locations"),
    MenuItem("Expectations", "/dashboard/expectations"),
    MenuItem("Contributors", "/dashboard/contributors"),
    MenuItem("Settings", "/dashboard/settings")
  ]

  /** The desktop sidebar highlights an item on an exact match, or, for every item but
      Overview, when the path starts with its href. */
  function IsActiveDesktop(pathname: string, href: string): (active: bool)
    ensures href == OVERVIEW_HREF ==> (active <==> pathname == href)
    ensures href != OVERVIEW_HREF ==> (active <==> |href| <= |pathname| && pathname[..|href|] == href)
  {
    pathname == href || (href != OVERVIEW_HREF && StartsWith(pathname, href))
  }

  /** The mobile menu highlights an item only on an exact match. */
  function IsActiveMobile(pathname: string, href: string): (active: bool)
    ensures active <==> IsActiveDesktop(pathname, href) && |pathname| == |href|
  {
    pathname == href
  }

  lemma OverviewActiveOnlyOnExactMatch(pathname: string)
    ensures IsActiveDesktop(pathname, OVERVIEW_HREF) <==> pathname == OVERVIEW_HREF
  {
  }

  /** Whatever the mobile menu highlights, the desktop sidebar highlights too. */
  lemma MobileActiveImpliesDesktopActive(pathname: string, href: string)
    ensures IsActiveMobile(pathname, href) ==> IsActiveDesktop(pathname, href)
  {
  }

  /** Sub-pages light up their section on the desktop but not on mobile, and the match is by
      characters, not by path segments. */
  lemma PrefixMatchIsByCharacters()
    ensures IsActiveDesktop("/dashboard/reports/42", "/dashboard/reports")
    ensures !IsActiveMobile("/dashboard/reports/42", "/dashboard/reports")
    ensures IsActiveDesktop("/dashboard/reportsarchive", "/dashboard/reports")
    ensures !IsActiveDesktop("/dashboard/reports", OVERVIEW_HREF)
  {
    assert "/dashboard/reports/42"[..|"/dashboard/reports"|] == "/dashboard/reports";
    assert "/dashboard/reportsarchive"[..|"/dashboard/reports"|] == "/dashboard/reports";
  }

  /** Two prefixes of the same path: the shorter is a prefix of the longer. */
  lemma PrefixesNest(p: string, a: string, b: string)
    requires StartsWith(p, a) && StartsWith(p, b) && |a| <= |b|
    ensures StartsWith(b, a)
  {
    assert b[..|a|] == p[..|b|][..|a|] == p[..|a|];
  }

  /** No href of the menu other than Overview's starts with another one, and Overview's is
      shorter than all the others. */
  lemma MenuHrefsPrefixFree()
    ensures forall i, j :: 1 <= i < |MENU_ITEMS| && 1 <= j < |MENU_ITEMS| && i != j ==>
              !StartsWith(MENU_ITEMS[j].href, MENU_ITEMS[i].href)
    ensures forall i :: 1 <= i < |MENU_ITEMS| ==> |MENU_ITEMS[i].href| > |OVERVIEW_HREF|
  {
    var hs := seq(|MENU_ITEMS|, k requires 0 <= k < |MENU_ITEMS| => MENU_ITEMS[k].href);
    assert hs[1][11] == 'r' && hs[2][11] == 't' && hs[3][11] == 'c' && hs[4][11] == 'l';
    assert hs[5][11] == 'e' && hs[6][11] == 'c' && hs[7][11] == 's';
    assert hs[3][12] == 'a' && hs[6][12] == 'o';
  }

  /** For any path, at most one item of the desktop sidebar is highlighted. */
  lemma AtMostOneActiveDesktop(pathname: string, i: int, j: int)
    requires 0 <= i < |MENU_ITEMS| && 0 <= j < |MENU_ITEMS|
    requires IsActiveDesktop(pathname, MENU_ITEMS[i].href) && IsActiveDesktop(pathname, MENU_ITEMS[j].href)
    ensures i == j
  {
    MenuHrefsPrefixFree();
    var a, b := MENU_ITEMS[i].href, MENU_ITEMS[j].href;
    if i != j && i != 0 && j != 0 {
      if |a| <= |b| {
        PrefixesNest(pathname, a, b);
      } else {
        PrefixesNest(pathname, b, a);
      }
    }
  }

  /** Avatar letter: the account id's first character upper-cased, `A` without one. */
  function AvatarInitial(user: Option<User>): (r: string)
    ensures |r| == 1
    ensures user.None? || user.value.accountId.None? || user.value.accountId.value == "" ==> r == "A"
    ensures user.Some? && user.value.accountId.Some? && user.value.accountId.value != "" ==>
              r == [UpperChar(user.value.accountId.value[0])]
  {
    var initial :=
      if user.Some? && user.value.accountId.Some? && user.value.accountId.value != ""
      then Some([UpperChar(user.value.accountId.value[0])])
      else None;
    OrElse(initial, "A")
  }

  /** Name line: the account id, `Admin` without one. */
  function DisplayName(user: Option<User>): (r: string)
    ensures r != ""
    ensures user.Some? && user.value.accountId.Some? && user.value.accountId.value != "" ==>
              r == user.value.accountId.value
    ensures user.None? || user.value.accountId.None? || user.value.accountId.value == "" ==> r == "Admin"
  {
    OrElse(if user.Some? then user.value.accountId else None, "Admin")
  }

  /** `user?.roles?.[0]` is there and not empty. */
  predicate HasFirstRole(user: Option<User>)
  {
    user.Some? && user.value.roles.Some? && |user.value.roles.value| > 0 && user.value.roles.value[0] != ""
  }

  /** Role line: the first role, `Administrator` when there is none (or it is empty). */
  function RoleLabel(user: Option<User>): (r: string)
    ensures r != ""
    ensures HasFirstRole(user) ==> r == user.value.roles.value[0]
    ensures !HasFirstRole(user) ==> r == "Administrator"
  {
    var first :=
      if user.Some? && user.value.roles.Some? && |user.value.roles.value| > 0
      then Some(user.value.roles.value[0])
      else None;
    OrElse(first, "Administrator")
  }

  class DashboardLayout {
    /** The browser's stored token and location, shared with the client layer. */
    const browser: ApiClient.Browser
    var user: Option<User>
    var sidebarOpen: bool

    constructor (browser: ApiClient.Browser)
      ensures this.browser == browser && user == None && !sidebarOpen
    {
      this.browser := browser;
      user := None;
      sidebarOpen := false;
    }

    /** The mount effect. Without a stored token the visitor is sent to `/` and the account
        is never asked for. Otherwise the account is fetched: a rejection removes the token
        and sends the visitor to `/`, a successful envelope sets `user`, an unsuccessful one
        leaves it as it was. Effects run only in a browser. */
    method Mount(reply: ApiClient.Reply<User>) returns (sent: Option<ApiClient.Request>)
      requires browser.hasWindow
      modifies this, browser
      ensures !old(browser.HasToken()) ==>
                sent.None? && browser.location == "/" && browser.token == old(browser.token) && user == old(user)
      ensures old(browser.HasToken()) ==>
                sent.Some? && ApiClient.CarriesSession(ApiClient.GetMe(), sent.value, true, old(browser.token))
      ensures old(browser.HasToken()) && reply.Answer? && ApiClient.IsSuccessStatus(reply.status) ==>
                && browser.token == old(browser.token) && browser.location == old(browser.location)
                && user == (if reply.body.success then reply.body.data else old(user))
      ensures old(browser.HasToken()) && !(reply.Answer? && ApiClient.IsSuccessStatus(reply.status)) ==>
                browser.token == None && browser.location == "/" && user == old(user)
      ensures sidebarOpen == old(sidebarOpen)
    {
      if !browser.HasToken() {
        browser.location := "/";
        sent := None;
        return;
      }
      var req, out := browser.Call(ApiClient.GetMe(), reply);
      sent := Some(req);
      match out {
        case Fulfilled(envelope) =>
          if envelope.success {
            user := envelope.data;
          }
        case Thrown(_) =>
          browser.token := None;
          browser.location := "/";
      }
    }

    /** `handleLogout`: forget the token and go to `/`. */
    method HandleLogout()
      modifies browser
      ensures browser.token == None && browser.location == "/"
    {
      browser.token := None;
      browser.location := "/";
    }

    /** The mobile menu button opens the sidebar; its backdrop, close button and links close it. */
    method SetSidebarOpen(open: bool)
      modifies this
      ensures sidebarOpen == open && user == old(user)
    {
      sidebarOpen := open;
    }
  }
}
