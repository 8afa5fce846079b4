/**
 * The navigation bar: a scrolled look past 50 px, a mobile menu toggle, and
 * the link handler that scrolls to a section on the home page or routes
 * there first.
 */
module Navbar {
  import opened Types
  import opened Browser

  const ScrollThreshold: real := 50.0

  /** The six section links, in display order. */
  const NavLinks: seq<string> := ["#home", "#about", "#services", "#portfolio", "#testimonials", "#contact"]

  /** What a link click does besides closing the menu. */
  datatype NavAction =
    | ScrollTo(id: string)             // already home: scroll now
    | GoHomeThenScroll(id: string)     // route to "/", scroll 100 ms later
    | NavigateTo(href: string)         // a plain route

  predicate IsHashLink(href: string)
  {
    |href| > 0 && href[0] == '#'
  }

  /**
   * The routing decision of handleNavClick.  A hash link names the element
   * id it scrolls to (the href without its '#'); only on "/" does it scroll
   * without routing.
   */
  function NavDecision(href: string, pathname: string): (a: NavAction)
    ensures a.NavigateTo? <==> !IsHashLink(href)
    ensures a.NavigateTo? ==> a.href == href
    ensures a.ScrollTo? <==> IsHashLink(href) && pathname == HomePath
    ensures !a.NavigateTo? ==> "#" + a.id == href
  {
    if IsHashLink(href) then
      var elementId := href[1..];
      assert "#" + elementId == href;
      if pathname == HomePath then ScrollTo(elementId) else GoHomeThenScroll(elementId)
    else NavigateTo(href)
  }

  /** Every bar link is a hash link to the section of the same name. */
  lemma NavLinksScrollToSections(pathname: string)
    ensures forall k :: 0 <= k < |NavLinks| ==> IsHashLink(NavLinks[k])
    ensures NavDecision("#contact", pathname).id == "contact"
  {
    assert "#contact"[1..] == "contact";
  }

  class Bar {
    var isScrolled: bool
    var isMobileMenuOpen: bool

    constructor ()
      ensures !isScrolled && !isMobileMenuOpen
    {
      isScrolled := false;
      isMobileMenuOpen := false;
    }

    /** The window scroll listener. */
    method OnScroll(scrollY: real)
      modifies this
      ensures isScrolled <==> scrollY > ScrollThreshold
      ensures isMobileMenuOpen == old(isMobileMenuOpen)
    {
      isScrolled := scrollY > ScrollThreshold;
    }

    /** The hamburger button. */
    method ToggleMenu()
      modifies this
      ensures isMobileMenuOpen == !old(isMobileMenuOpen) && isScrolled == old(isScrolled)
    {
      isMobileMenuOpen := !isMobileMenuOpen;
    }

    /**
     * handleNavClick: close the menu, then scroll, route home and scroll,
     * or route to the href.  The returned action names the scroll target.
     */
    method NavClick(href: string, w: Window) returns (action: NavAction)
      modifies this, w
      ensures !isMobileMenuOpen && isScrolled == old(isScrolled)
      ensures action == NavDecision(href, old(w.path))
      ensures action.ScrollTo? ==> w.path == old(w.path)
      ensures action.GoHomeThenScroll? ==> w.path == HomePath
      ensures action.NavigateTo? ==> w.path == href
      ensures w.storage == old(w.storage)
    {
      isMobileMenuOpen := false;
      action := NavDecision(href, w.path);
      match action
      case ScrollTo(_) =>
      case GoHomeThenScroll(_) =>
        w.Navigate(HomePath);
      case NavigateTo(target) =>
        w.Navigate(target);
    }
  }
}
