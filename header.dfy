/** The site `Header`: a transparent bar that turns into a glass card once
    the page has scrolled, and a mobile menu that the menu button toggles
    and that closes after navigating to a section. */
module HeaderComponent {
  import opened Common

  datatype NavItem = NavItem(name: string, id: string)

  /** The ids of the page's four sections. */
  const SectionIds: set<string> := {"hero", "about", "projects", "contact"}

  /** The navigation entries, the same for the desktop bar and the mobile
      menu: each of the four sections exactly once. */
  function NavItems(): (items: seq<NavItem>)
    ensures |items| == 4
    ensures forall i :: 0 <= i < |items| ==> items[i].id in SectionIds
    ensures forall i, j :: 0 <= i < j < |items| ==> items[i].id != items[j].id
  {
    [NavItem("Home", "hero"), NavItem("About", "about"),
     NavItem("Projects", "projects"), NavItem("Contact", "contact")]
  }

  /** The scroll offset past which the header is drawn as scrolled. */
  const ScrolledThreshold: real := 50.0

  class Header {
    var isScrolled: bool
    var isMobileMenuOpen: bool

    constructor ()
      ensures !isScrolled && !isMobileMenuOpen
    {
      isScrolled := false;
      isMobileMenuOpen := false;
    }

    /** The window `scroll` listener, with `window.scrollY` passed in. */
    method OnScroll(scrollY: real)
      modifies this
      ensures isScrolled <==> scrollY > 50.0
      ensures isMobileMenuOpen == old(isMobileMenuOpen)
    {
      isScrolled := scrollY > ScrolledThreshold;
    }

    /** The mobile menu button. */
    method ToggleMobileMenu()
      modifies this
      ensures isMobileMenuOpen == !old(isMobileMenuOpen)
      ensures isScrolled == old(isScrolled)
    {
      isMobileMenuOpen := !isMobileMenuOpen;
    }

    /** `scrollToSection`: scrolls the element with that id into view and
        closes the menu; with no such element nothing happens. Returns the
        offset of the element scrolled to. */
    method ScrollToSection(doc: Document, id: string) returns (scrolledTo: Option<real>)
      modifies this
      ensures scrolledTo.Some? <==> id != "" && id in doc
      ensures scrolledTo.Some? ==> scrolledTo.value == doc[id] && !isMobileMenuOpen
      ensures scrolledTo.None? ==> isMobileMenuOpen == old(isMobileMenuOpen)
      ensures isScrolled == old(isScrolled)
    {
      var element := GetElementById(doc, id);
      scrolledTo := None;
      if element.Some? {
        scrolledTo := Some(element.value);
        isMobileMenuOpen := false;
      }
    }

    /** A click on the `index`-th navigation entry. On a page that has all
        four sections, it always scrolls and leaves the menu closed. */
    method ClickNavItem(doc: Document, index: nat) returns (scrolledTo: Option<real>)
      requires index < 4
      modifies this
      ensures scrolledTo == GetElementById(doc, NavItems()[index].id)
      ensures scrolledTo.Some? ==> !isMobileMenuOpen
      ensures SectionIds <= doc.Keys ==> scrolledTo.Some? && !isMobileMenuOpen
      ensures scrolledTo.None? ==> isMobileMenuOpen == old(isMobileMenuOpen)
      ensures isScrolled == old(isScrolled)
    {
      var item := NavItems()[index];
      assert item.id in SectionIds && item.id != "";
      scrolledTo := ScrollToSection(doc, item.id);
    }

    /** The "Join Us" buttons go to the contact section. */
    method JoinUs(doc: Document) returns (scrolledTo: Option<real>)
      modifies this
      ensures scrolledTo.Some? <==> "contact" in doc
      ensures scrolledTo.Some? ==> scrolledTo.value == doc["contact"] && !isMobileMenuOpen
      ensures scrolledTo.None? ==> isMobileMenuOpen == old(isMobileMenuOpen)
      ensures isScrolled == old(isScrolled)
    {
      scrolledTo := ScrollToSection(doc, "contact");
    }
  }

  /** Pressing the menu button twice leaves the menu as it was. */
  method ToggleTwiceRestores(h: Header)
    modifies h
    ensures h.isMobileMenuOpen == old(h.isMobileMenuOpen)
    ensures h.isScrolled == old(h.isScrolled)
  {
    h.ToggleMobileMenu();
    h.ToggleMobileMenu();
  }

  /** The header only reflects the latest scroll event: scrolling down past
      50 px and back to the top makes it transparent again. */
  method ScrollDownAndBack(h: Header)
    modifies h
    ensures !h.isScrolled
    ensures h.isMobileMenuOpen == old(h.isMobileMenuOpen)
  {
    h.OnScroll(400.0);
    assert h.isScrolled;
    h.OnScroll(0.0);
  }
}
