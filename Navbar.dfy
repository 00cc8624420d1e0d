/** The navigation bar: the language toggle and its labels, the `scrolled`
    flag, the mobile menu, and in-page navigation by anchor. */
module Navbar {
  import opened Strings
  import opened LanguageContext
  import opened Constants

  /** The language `toggleLang` asks for. */
  function Opposite(l: Language): (r: Language)
    ensures r != l
  {
    if l == Pl then En else Pl
  }

  /** Toggling twice comes back to where it started. */
  lemma ToggleTwice(l: Language)
    ensures Opposite(Opposite(l)) == l
  {
  }

  /** The desktop button names the language a click switches to. */
  function DesktopToggleLabel(l: Language): (r: string)
    ensures r == ToUpper(Code(Opposite(l)))
  {
    if l == Pl then "EN" else "PL"
  }

  /** The mobile button names the current language. */
  function MobileToggleLabel(l: Language): (r: string)
    ensures r == if l == Pl then "PL" else "EN"
  {
    ToUpper(Code(l))
  }

  /** The two buttons disagree: the desktop label is the mobile label of the
      other language, so they never show the same text. */
  lemma ToggleLabelsDisagree(l: Language)
    ensures DesktopToggleLabel(l) == MobileToggleLabel(Opposite(l))
    ensures DesktopToggleLabel(l) != MobileToggleLabel(l)
  {
    assert ToUpper("pl") == "PL" && ToUpper("en") == "EN";
  }

  /** The element id an anchor points at: `href` with its first `#`
      removed. */
  function TargetId(href: string): (id: string)
    ensures '#' !in href ==> id == href
    ensures '#' in href ==> |id| == |href| - 1
  {
    RemoveFirst(href, '#')
  }

  /** What a click on an anchor does to the page. */
  datatype ScrollAction = ScrollIntoView(id: string) | ScrollToTop | NoScroll

  /** `scrollToSection` without its state change: scroll to the element when
      one has the target id (the empty id never matches an element), else to
      the top for the bare `#`, else nothing. `ids` are the element ids of
      the document. */
  function ScrollTarget(href: string, ids: set<string>): (a: ScrollAction)
    ensures a.ScrollIntoView? <==> TargetId(href) != "" && TargetId(href) in ids
    ensures a.ScrollIntoView? ==> a.id == TargetId(href)
    ensures a.ScrollToTop? <==> !(TargetId(href) != "" && TargetId(href) in ids) && href == "#"
  {
    var targetId := TargetId(href);
    if targetId != "" && targetId in ids then ScrollIntoView(targetId)
    else if href == "#" then ScrollToTop
    else NoScroll
  }

  /** The logo's `#` scrolls to the top whatever the document holds. */
  lemma LogoScrollsToTop(ids: set<string>)
    ensures ScrollTarget("#", ids) == ScrollToTop
  {
    assert "#" == [] + ['#'] + [];
    RemoveFirstSplices([], [], '#');
  }

  /** Each of the four nav links scrolls to its page section, whatever the
      labels say, as long as the page renders those sections. */
  lemma NavLinksReachSections(t: string -> string, ids: set<string>, i: nat)
    requires i < 4
    requires forall k :: 0 <= k < 4 ==> SectionIds()[k] in ids
    ensures ScrollTarget(GetNavLinks(t)[i].href, ids) == ScrollIntoView(SectionIds()[i])
  {
    var id := SectionIds()[i];
    assert GetNavLinks(t)[i].href == [] + ['#'] + id;
    RemoveFirstSplices([], id, '#');
  }

  /** The bar's own state: the mobile menu and the scrolled look. */
  class NavbarState {
    var isOpen: bool
    var scrolled: bool

    constructor ()
      ensures !isOpen && !scrolled
    {
      isOpen := false;
      scrolled := false;
    }

    /** The scroll listener: strictly more than 20 pixels down. */
    method HandleScroll(scrollY: real)
      modifies this
      ensures scrolled <==> scrollY > 20.0
      ensures isOpen == old(isOpen)
    {
      scrolled := scrollY > 20.0;
    }

    /** The menu button flips the menu. */
    method ToggleMenu()
      modifies this
      ensures isOpen == !old(isOpen)
      ensures scrolled == old(scrolled)
    {
      isOpen := !isOpen;
    }

    /** `scrollToSection`: the menu closes exactly when the click scrolls
      somewhere; otherwise it stays as it was. */
    method ScrollToSection(href: string, ids: set<string>) returns (action: ScrollAction)
      modifies this
      ensures action == ScrollTarget(href, ids)
      ensures isOpen == (if action.NoScroll? then old(isOpen) else false)
      ensures scrolled == old(scrolled)
    {
      var targetId := TargetId(href);
      if targetId != "" && targetId in ids {
        action := ScrollIntoView(targetId);
        isOpen := false;
      } else if href == "#" {
        action := ScrollToTop;
        isOpen := false;
      } else {
        action := NoScroll;
      }
    }
  }

  /** `toggleLang`: ask the provider for the other language. */
  method ToggleLang(provider: LanguageProvider)
    modifies provider
    ensures provider.language == Opposite(old(provider.language))
    ensures provider.language != old(provider.language)
    ensures provider.search == SearchAfterSet(old(provider.search), provider.language)
    ensures provider.Synced()
  {
    provider.SetLanguage(Opposite(provider.language));
  }
}
