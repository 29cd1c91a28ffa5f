/** The site header (src/components/Navbar.tsx): which navigation link is
    highlighted for the current path, and the mobile menu's open flag. */
module NavbarComponent {
  import opened Common

  datatype NavLink = NavLink(caption: string, href: string)

  const NavLinks: seq<NavLink> := [
    NavLink("Home", "/"),
    NavLink("Shop", "/products"),
    NavLink("About Us", "/about"),
    NavLink("Contact", "/contact"),
    NavLink("FAQ", "/faq")
  ]

  /** `href.split("?")[0]`: the link's path without its query. */
  function HrefPath(href: string): (r: string)
    ensures '?' !in r
    ensures '?' !in href ==> r == href
  {
    PrefixBefore(href, '?')
  }

  /** A link is highlighted when the path is its own, except that the root
      path highlights only the link whose href is exactly "/". */
  predicate IsActive(pathname: string, href: string) {
    (pathname == HrefPath(href) && pathname != "/") || (pathname == "/" && href == "/")
  }

  /** On the home page, Home is the only highlighted link. */
  lemma OnlyHomeActiveAtRoot(i: int)
    requires 0 <= i < |NavLinks|
    ensures IsActive("/", NavLinks[i].href) <==> i == 0
  {
  }

  /** Away from the home page a link is highlighted exactly when the path is
      its href without the query, so Home never is. */
  lemma ActiveAwayFromRoot(pathname: string, href: string)
    requires pathname != "/"
    ensures IsActive(pathname, href) <==> pathname == HrefPath(href)
    ensures !IsActive(pathname, "/")
  {
  }

  /** The links' paths are distinct, so at most one link is highlighted on any path. */
  lemma AtMostOneActive(pathname: string, i: int, j: int)
    requires 0 <= i < |NavLinks| && 0 <= j < |NavLinks|
    requires IsActive(pathname, NavLinks[i].href) && IsActive(pathname, NavLinks[j].href)
    ensures i == j
  {
    if pathname == "/" {
      OnlyHomeActiveAtRoot(i);
      OnlyHomeActiveAtRoot(j);
    } else {
      NoQueryInLinks(i);
      NoQueryInLinks(j);
      assert NavLinks[i].href == NavLinks[j].href;
      // The five hrefs have five different lengths.
      assert |NavLinks[i].href| == |NavLinks[j].href|;
    }
  }

  lemma NoQueryInLinks(k: int)
    requires 0 <= k < |NavLinks|
    ensures '?' !in NavLinks[k].href
  {
  }

  /** The header's state: whether the mobile menu is open. */
  class Navbar {
    var mobileOpen: bool

    constructor ()
      ensures !mobileOpen
    {
      mobileOpen := false;
    }

    /** The menu button flips the flag. */
    method Toggle()
      modifies this
      ensures mobileOpen == !old(mobileOpen)
    {
      mobileOpen := !mobileOpen;
    }

    /** Following a link of the mobile menu closes it. */
    method FollowMobileLink()
      modifies this
      ensures !mobileOpen
    {
      mobileOpen := false;
    }
  }
}
