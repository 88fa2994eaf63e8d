/**
 * The works site's home page: the active section tracked on scroll over a
 * fixed list of five sections, the mobile menu toggle, and the desktop
 * navigation that highlights the active section.
 */
module WorksHomePage {
  import opened Dom
  import opened Wrappers
  import Navigation

  /** The page's sections in scan and navigation order. */
  const Sections: seq<string> := ["home", "about", "work", "process", "contact"]

  /** The desktop navigation highlights exactly one item, whatever section is active. */
  lemma DesktopNavHighlightsOne(active: string)
    requires active in Sections
    ensures Navigation.CountTrue(Navigation.Highlights(Sections, active)) == 1
  {
    Navigation.HighlightCount(Sections, active);
  }

  /** The `HomePage` component's navigation state. */
  class HomePage {
    var isMenuOpen: bool
    var activeSection: string

    ghost predicate Valid()
      reads this
    {
      activeSection in Sections
    }

    constructor ()
      ensures Valid() && !isMenuOpen && activeSection == "home"
    {
      isMenuOpen := false;
      activeSection := "home";
    }

    /** The desktop navigation's highlight flags. */
    function NavHighlights(): seq<bool>
      reads this
    {
      Navigation.Highlights(Sections, activeSection)
    }

    /**
     * `scrollToSection`, behind every navigation item and both hero buttons:
     * the section scrolled into view, if its element exists; the menu is
     * closed either way.
     */
    method ScrollToSection(sectionId: string, doc: Document) returns (scrolled: Option<string>)
      requires Valid()
      modifies this
      ensures Valid()
      ensures scrolled == Navigation.ScrollTarget(doc, sectionId)
      ensures !isMenuOpen && activeSection == old(activeSection)
    {
      scrolled := Navigation.ScrollTarget(doc, sectionId);
      isMenuOpen := false;
    }

    /** The mobile menu button. */
    method ToggleMenu()
      requires Valid()
      modifies this
      ensures Valid()
      ensures isMenuOpen == !old(isMenuOpen) && activeSection == old(activeSection)
    {
      isMenuOpen := !isMenuOpen;
    }

    /**
     * The scroll listener over the five sections: the first containing
     * `scrollY + 100` becomes active; when none does the active section
     * stays as it was.
     */
    method HandleScroll(scrollY: real, doc: Document)
      requires Valid()
      modifies this
      ensures Valid()
      ensures activeSection == Navigation.FirstHit(Sections, doc, scrollY + Navigation.ScrollOffset).GetOr(old(activeSection))
      ensures isMenuOpen == old(isMenuOpen)
    {
      var found := Navigation.Scan(Sections, doc, scrollY);
      if found.Some? {
        activeSection := found.value;
      }
    }
  }

  /** Pressing the menu button twice leaves the menu as it was. */
  method ToggleTwice(page: HomePage)
    requires page.Valid()
    modifies page
    ensures page.Valid()
    ensures page.isMenuOpen == old(page.isMenuOpen) && page.activeSection == old(page.activeSection)
  {
    page.ToggleMenu();
    page.ToggleMenu();
  }

  /**
   * Whatever the page scrolls to, the desktop navigation still highlights
   * exactly one section.
   */
  method ScrollKeepsOneHighlight(page: HomePage, scrollY: real, doc: Document)
    requires page.Valid()
    modifies page
    ensures page.Valid() && Navigation.CountTrue(page.NavHighlights()) == 1
  {
    page.HandleScroll(scrollY, doc);
    DesktopNavHighlightsOne(page.activeSection);
  }
}
