/**
 The navigation bar of `src/components/layout/Navbar.tsx`: the logged-in
 predicate read from the token store, the logout transition, the mobile menu
 toggle and the active-link and scrolled predicates.
 */
module Navbar {
  import opened Wrappers
  import ApiClient

  /** The bar's own component state. */
  datatype Bar = Bar(menuOpen: bool, scrolled: bool)

  const Initial := Bar(false, false)

  /** The links the bar renders, in order, as (name, path). */
  const NavLinks: seq<(string, string)> := [("Home", "/"), ("Browse", "/browse"), ("How It Works", "/how-it-works")]

  /** Logged in means the storage key is set, whatever its value. */
  predicate IsLoggedIn(c: ApiClient.Client): (b: bool)
    ensures Truthy(c.token) ==> b
    ensures ApiClient.TokenValid(c) ==> (b <==> Truthy(c.token))
  {
    c.token != None
  }

  /**
   The logout item: remove the token and assign `window.location.href = '/'`,
   a page load of the document `/` at the root route.
   */
  function Logout(c: ApiClient.Client): (c': ApiClient.Client)
    ensures !IsLoggedIn(c')
    ensures c'.location == "/" && c'.route == ApiClient.RootRoute
    ensures c'.toasts == c.toasts
  {
    ApiClient.Logout(c).(location := "/", route := ApiClient.RootRoute)
  }

  /** The mobile menu's logout button: the same logout, and the menu closes. */
  function MobileLogout(c: ApiClient.Client, b: Bar): (r: (ApiClient.Client, Bar))
    ensures r.0 == Logout(c)
    ensures !r.1.menuOpen && r.1.scrolled == b.scrolled
  {
    (Logout(c), b.(menuOpen := false))
  }

  /** The menu button flips the mobile menu; nothing else changes. */
  function ToggleMenu(b: Bar): (b': Bar)
    ensures b'.menuOpen != b.menuOpen && b'.scrolled == b.scrolled
  {
    b.(menuOpen := !b.menuOpen)
  }

  /** A mobile link closes the menu whatever its state was. */
  function CloseMenu(b: Bar): (b': Bar)
    ensures !b'.menuOpen && b'.scrolled == b.scrolled
  {
    b.(menuOpen := false)
  }

  /** A link is highlighted iff the router's current route is exactly its path. */
  predicate IsActive(pathname: string, linkPath: string) {
    pathname == linkPath
  }

  /** The scroll listener: the bar is in its scrolled style iff the offset exceeds 10. */
  function OnScroll(b: Bar, scrollY: real): (b': Bar)
    ensures b'.scrolled <==> scrollY > 10.0
    ensures b'.menuOpen == b.menuOpen
  {
    b.(scrolled := scrollY > 10.0)
  }

  /** The indices of the links highlighted for a pathname. */
  function ActiveLinks(pathname: string): (r: set<int>)
    ensures forall i :: i in r <==> 0 <= i < |NavLinks| && IsActive(pathname, NavLinks[i].1)
  {
    set i | 0 <= i < |NavLinks| && IsActive(pathname, NavLinks[i].1)
  }

  /** The navigation paths are distinct, so at most one link is ever highlighted. */
  lemma AtMostOneActive(pathname: string)
    ensures |ActiveLinks(pathname)| <= 1
  {
    var r := ActiveLinks(pathname);
    if pathname == "/" {
      assert r == {0};
    } else if pathname == "/browse" {
      assert r == {1};
    } else if pathname == "/how-it-works" {
      assert r == {2};
    } else {
      assert r == {};
    }
  }

  /** Two presses of the menu button restore the menu state. */
  lemma ToggleTwice(b: Bar)
    ensures ToggleMenu(ToggleMenu(b)) == b
  {
  }

  /** Closing is idempotent, and opening the menu then following a link gives the closed bar back. */
  lemma CloseAfterOpen(b: Bar)
    ensures CloseMenu(CloseMenu(b)) == CloseMenu(b)
    ensures !b.menuOpen ==> CloseMenu(ToggleMenu(b)) == b
  {
  }

  /** The scrolled style is monotone in the offset, and the scroll listener and the menu never interfere. */
  lemma ScrollMonotone(b: Bar, y1: real, y2: real)
    ensures y1 <= y2 && OnScroll(b, y1).scrolled ==> OnScroll(b, y2).scrolled
    ensures OnScroll(ToggleMenu(b), y1) == ToggleMenu(OnScroll(b, y1))
    ensures OnScroll(OnScroll(b, y1), y2) == OnScroll(b, y2)
  {
  }

  /**
   On every token store the client can reach, the bar's logged-in predicate
   agrees with whether the API client attaches a bearer header.
   */
  lemma LoggedInIffHeaderSent(c: ApiClient.Client, req: ApiClient.Request)
    requires ApiClient.TokenValid(c)
    requires ApiClient.AuthHeader !in req.headers
    ensures IsLoggedIn(c) <==> ApiClient.AuthHeader in ApiClient.AttachToken(c, req).headers
  {
    ApiClient.HeaderIffToken(c, req);
  }

  /** After the bar's logout, desktop or mobile, requests go out without credentials. */
  lemma LogoutDropsCredentials(c: ApiClient.Client, b: Bar, req: ApiClient.Request)
    ensures ApiClient.AttachToken(Logout(c), req) == req
    ensures ApiClient.AttachToken(MobileLogout(c, b).0, req) == req
    ensures MobileLogout(c, b).1 == CloseMenu(b)
  {
  }
}
