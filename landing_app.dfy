/**
 * The landing page's navigation state: which section is active, whether the
 * mobile menu is open, and what a content button does when pressed. The
 * section list comes from the page's content file and is a parameter here;
 * the effects on the browser (scrolling, navigating, opening a window,
 * logging) are returned as values.
 */
module LandingApp {
  import opened Dom
  import opened Wrappers
  import Navigation

  /** A content button: its label, what kind of action it triggers, and the action's argument. */
  datatype Button = Button(text: string, action: string, target: string)

  /** What a handler asks the browser to do. */
  datatype Effect =
    | ScrollIntoView(id: string)
    | SetLocation(href: string)
    | OpenWindow(url: string, windowName: string, features: string)
    | Log(message: string, argument: string)
    | NoEffect

  function Mailto(address: string): string {
    "mailto:" + address
  }

  function Tel(number: string): string {
    "tel:" + number
  }

  /** The rest of `s` after `prefix`, when `s` starts with it. */
  function StripPrefix(prefix: string, s: string): (r: Option<string>)
    ensures r.Some? <==> |prefix| <= |s| && s[..|prefix|] == prefix
    ensures r.Some? ==> prefix + r.value == s
  {
    if |prefix| <= |s| && s[..|prefix|] == prefix then Some(s[|prefix|..]) else None
  }

  /**
   * Both link schemes give back the address or number they were built from,
   * and neither kind of link can be mistaken for the other.
   */
  lemma {:induction false} HrefRoundTrip(target: string)
    ensures StripPrefix("mailto:", Mailto(target)) == Some(target)
    ensures StripPrefix("tel:", Tel(target)) == Some(target)
    ensures StripPrefix("tel:", Mailto(target)).None?
    ensures StripPrefix("mailto:", Tel(target)).None?
  {
    assert Mailto(target)[..7] == "mailto:";
    assert Mailto(target)[7..] == target;
    assert Tel(target)[..4] == "tel:";
    assert Tel(target)[4..] == target;
    assert Mailto(target)[0] == 'm';
    assert Tel(target)[0] == 't';
  }

  /** `scrollToSection`'s effect: scroll the element into view if it exists, else nothing. */
  function ScrollEffect(doc: Document, sectionId: string): Effect {
    match Navigation.ScrollTarget(doc, sectionId)
    case Some(id) => ScrollIntoView(id)
    case None => NoEffect
  }

  /** `handleButtonAction`'s effect, by the button's action kind. */
  function ButtonEffect(button: Button, doc: Document): Effect {
    if button.action == "scroll" then ScrollEffect(doc, button.target)
    else if button.action == "email" then SetLocation(Mailto(button.target))
    else if button.action == "link" then OpenWindow(button.target, "_blank", "noopener,noreferrer")
    else if button.action == "phone" then SetLocation(Tel(button.target))
    else Log("Unknown action:", button.action)
  }

  /**
   * Each action kind has its own effect and every other kind is logged:
   * `scroll` scrolls to an existing target and otherwise does nothing;
   * `email` and `phone` navigate to the matching link, from which the target
   * can be read back; `link` opens the target in a new window without an
   * opener.
   */
  lemma ButtonEffectKinds(button: Button, doc: Document)
    ensures var e := ButtonEffect(button, doc);
      && (e.ScrollIntoView? <==> button.action == "scroll" && button.target in doc)
      && (e.ScrollIntoView? ==> e.id == button.target)
      && (e.NoEffect? <==> button.action == "scroll" && button.target !in doc)
      && (e.SetLocation? <==> button.action == "email" || button.action == "phone")
      && (button.action == "email" ==> StripPrefix("mailto:", e.href) == Some(button.target))
      && (button.action == "phone" ==> StripPrefix("tel:", e.href) == Some(button.target))
      && (e.OpenWindow? <==> button.action == "link")
      && (e.OpenWindow? ==> e == OpenWindow(button.target, "_blank", "noopener,noreferrer"))
      && (e.Log? <==> button.action !in {"scroll", "email", "link", "phone"})
      && (e.Log? ==> e.argument == button.action)
  {
    HrefRoundTrip(button.target);
  }

  /** The landing `App` component's navigation state. */
  class App {
    const sections: seq<string>
    var isMenuOpen: bool
    var activeSection: string

    /**
     * The active section is `home` or one of the sections; no handler of
     * this component opens the menu, so it stays closed.
     */
    ghost predicate Valid()
      reads this
    {
      !isMenuOpen && (activeSection == "home" || activeSection in sections)
    }

    constructor (sections: seq<string>)
      ensures Valid()
      ensures this.sections == sections && !isMenuOpen && activeSection == "home"
    {
      this.sections := sections;
      isMenuOpen := false;
      activeSection := "home";
    }

    /** `scrollToSection`: scroll if the element exists, and close the menu either way. */
    method ScrollToSection(sectionId: string, doc: Document) returns (e: Effect)
      requires Valid()
      modifies this
      ensures Valid()
      ensures e == ScrollEffect(doc, sectionId)
      ensures !isMenuOpen && activeSection == old(activeSection)
    {
      e := ScrollEffect(doc, sectionId);
      isMenuOpen := false;
    }

    /** `handleButtonAction`: only a `scroll` button touches the menu, by closing it. */
    method HandleButtonAction(button: Button, doc: Document) returns (e: Effect)
      requires Valid()
      modifies this
      ensures Valid()
      ensures e == ButtonEffect(button, doc)
      ensures isMenuOpen == (if button.action == "scroll" then false else old(isMenuOpen))
      ensures activeSection == old(activeSection)
    {
      if button.action == "scroll" {
        e := ScrollToSection(button.target, doc);
      } else if button.action == "email" {
        e := SetLocation(Mailto(button.target));
      } else if button.action == "link" {
        e := OpenWindow(button.target, "_blank", "noopener,noreferrer");
      } else if button.action == "phone" {
        e := SetLocation(Tel(button.target));
      } else {
        e := Log("Unknown action:", button.action);
      }
    }

    /**
     * The scroll listener: the first section containing `scrollY + 100`
     * becomes active; when none does, the active section stays as it was.
     */
    method HandleScroll(scrollY: real, doc: Document)
      requires Valid()
      modifies this
      ensures Valid()
      ensures activeSection == Navigation.FirstHit(sections, doc, scrollY + Navigation.ScrollOffset).GetOr(old(activeSection))
      ensures isMenuOpen == old(isMenuOpen)
    {
      var found := Navigation.Scan(sections, doc, scrollY);
      if found.Some? {
        activeSection := found.value;
      }
    }
  }
}
