/** The fixed navigation bar: the scrolled look, the mobile menu and the
    four anchor links. */
module Navbar {
  import opened Wrappers
  import opened Geometry

  datatype NavItem = NavItem(href: string, caption: string)

  const NavItems: seq<NavItem> := [
    NavItem("#home", "Home"),
    NavItem("#about", "About"),
    NavItem("#projects", "Projects"),
    NavItem("#contact", "Contact")
  ]

  /** The page scroll beyond which the bar takes its scrolled look. */
  const ScrolledThreshold: int := 50

  function NavHrefs(items: seq<NavItem>): (hrefs: seq<string>)
    ensures |hrefs| == |items|
    ensures forall i :: 0 <= i < |items| ==> hrefs[i] == items[i].href
  {
    if items == [] then [] else [items[0].href] + NavHrefs(items[1..])
  }

  lemma NavItemsInOrder()
    ensures NavHrefs(NavItems) == ["#home", "#about", "#projects", "#contact"]
  {
  }

  /** The mounted `Navbar` component. */
  class NavbarState {
    var isScrolled: bool
    var isMobileMenuOpen: bool

    constructor ()
      ensures !isScrolled && !isMobileMenuOpen
    {
      isScrolled, isMobileMenuOpen := false, false;
    }

    /** The window's scroll listener. */
    method HandleScroll(scrollY: int)
      modifies this
      ensures isScrolled <==> scrollY > ScrolledThreshold
      ensures isMobileMenuOpen == old(isMobileMenuOpen)
    {
      isScrolled := scrollY > ScrolledThreshold;
    }

    /** The mobile-menu button. */
    method ToggleMobileMenu()
      modifies this
      ensures isMobileMenuOpen == !old(isMobileMenuOpen)
      ensures isScrolled == old(isScrolled)
    {
      isMobileMenuOpen := !isMobileMenuOpen;
    }

    /** The navbar's `handleNavClick`: it emits the same destination as the
        hero's (the offset that would put the element's top `HeaderOffset`
        pixels below the viewport top), emits none for a missing element,
        and closes the mobile menu in both cases. */
    method HandleNavClick(href: string, vp: Viewport) returns (destination: Option<int>)
      modifies this
      ensures destination.Some? <==> href in vp.rectTop
      ensures destination.Some? ==> TopAfterScroll(vp, href, destination.value) == HeaderOffset
      ensures !isMobileMenuOpen && isScrolled == old(isScrolled)
    {
      destination := None;
      if href in vp.rectTop {
        var elementPosition := vp.rectTop[href];
        var offsetPosition := elementPosition + vp.pageYOffset - HeaderOffset;
        destination := Some(offsetPosition);
      }
      isMobileMenuOpen := false;
    }
  }
}
