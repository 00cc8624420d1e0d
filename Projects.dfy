/** The projects section: the cards with their truncated tech stacks and
    features, the selection that opens a preview window, and the preview
    window's loading state, reload counter and size class. */
module Projects {
  import opened Query
  import opened LanguageContext
  import opened Constants

  /** `slice(0, n)`: at most the first `n` elements. */
  function Take<T>(s: seq<T>, n: nat): (r: seq<T>)
    ensures |r| == if |s| < n then |s| else n
    ensures r == s[..|r|]
  {
    if |s| < n then s else s[..n]
  }

  /** The tech badges a card shows. */
  function VisibleTechs(p: Project): (r: seq<string>)
    ensures |r| == if |p.techStack| < 3 then |p.techStack| else 3
    ensures forall k :: 0 <= k < |r| ==> r[k] == p.techStack[k]
  {
    Take(p.techStack, 3)
  }

  /** The `+n` counter after the badges, present only when some techs are
      hidden, and then counting exactly the hidden ones. */
  function TechOverflow(p: Project): (r: Option<nat>)
    ensures r.Some? <==> |p.techStack| > 3
    ensures r.Some? ==> r.value == |p.techStack| - |VisibleTechs(p)|
  {
    if |p.techStack| > 3 then Some(|p.techStack| - 3) else None
  }

  /** Every tech is either shown or counted, never both. */
  lemma TechsAccounted(p: Project)
    ensures |VisibleTechs(p)| + (if TechOverflow(p).Some? then TechOverflow(p).value else 0) == |p.techStack|
  {
  }

  /** The feature bullets a card shows. */
  function VisibleFeatures(p: Project): (r: seq<string>)
    ensures |r| == if |p.features| < 2 then |p.features| else 2
    ensures forall k :: 0 <= k < |r| ==> r[k] == p.features[k]
  {
    Take(p.features, 2)
  }

  /** The `$ Rev` badge. */
  function ShowsRevenueBadge(p: Project): (r: bool)
    ensures r <==> p.isMonetized == Some(true)
  {
    Monetized(p)
  }

  /** Across either language's table, the `$ Rev` badge appears on the
      `deeplomai` card and on no other. */
  lemma RevenueBadgeOnlyOnDeeplomai(l: Language)
    ensures forall i :: 0 <= i < 6 ==> (ShowsRevenueBadge(GetProjects(l)[i]) <==> GetProjects(l)[i].id == "deeplomai")
  {
    LinkAndMonetization(l);
  }

  /** The address bar of the preview window: the link, or a placeholder
      when the link is absent or empty. */
  function AddressBarText(p: Project): (r: string)
    ensures HasLink(p) ==> r == p.link.value
    ensures !HasLink(p) ==> r == "local://preview"
    ensures r != ""
  {
    if HasLink(p) then p.link.value else "local://preview"
  }

  /** What the window body renders: the iframe, with the spinner over it
      while loading, or the notice that no preview exists. */
  datatype WindowBody = Iframe(src: string, spinner: bool) | NoPreview

  function BodyFor(p: Project, isLoading: bool): (r: WindowBody)
    ensures r.Iframe? <==> HasLink(p)
    ensures r.Iframe? ==> r.src == AddressBarText(p) && r.spinner == isLoading
  {
    if HasLink(p) then Iframe(p.link.value, isLoading) else NoPreview
  }

  /** On every card of either language: the shown techs and features are
      prefixes of the lists, and all but `helen-doron` can be clicked open. */
  lemma CardsOfTable(l: Language, i: nat)
    requires i < 6
    ensures |VisibleTechs(GetProjects(l)[i])| <= 3
    ensures |VisibleFeatures(GetProjects(l)[i])| == 2
    ensures HasLink(GetProjects(l)[i]) <==> GetProjects(l)[i].id != "helen-doron"
  {
    LinkAndMonetization(l);
    ProjectsParity();
    FeaturesAtLeastTwo(l, i);
  }

  /** Every project lists at least two features. */
  lemma FeaturesAtLeastTwo(l: Language, i: nat)
    requires i < 6
    ensures |GetProjects(l)[i].features| >= 2
  {
    ProjectParityOf(i);
  }

  /** The section's selection: the project whose preview window is open. */
  class ProjectsSection {
    var selected: Option<Project>

    /** Only a project with a link is ever selected. */
    predicate Valid()
      reads this
    {
      selected.Some? ==> HasLink(selected.value)
    }

    /** The preview window is on screen exactly when something is selected;
      a shown window always holds the live iframe, never the no-preview
      notice. */
    function WindowShown(): (r: bool)
      reads this
      ensures r <==> selected.Some?
      ensures r && Valid() ==> BodyFor(selected.value, true).Iframe? && BodyFor(selected.value, false).Iframe?
    {
      selected.Some?
    }

    constructor ()
      ensures Valid() && selected == None
    {
      selected := None;
    }

    /** `handleProjectClick`: select the project only if it has a link;
      otherwise leave the selection as it was. */
    method HandleProjectClick(p: Project)
      requires Valid()
      modifies this
      ensures Valid()
      ensures selected == if HasLink(p) then Some(p) else old(selected)
      ensures HasLink(p) ==> WindowShown()
      ensures !HasLink(p) ==> WindowShown() == old(WindowShown())
    {
      if HasLink(p) {
        selected := Some(p);
      }
    }

    /** The window's close button and backdrop. */
    method Close()
      modifies this
      ensures Valid() && selected == None && !WindowShown()
    {
      selected := None;
    }
  }

  /** A click on card `i` of the table opens its preview, except for
      `helen-doron`, whose click changes nothing. */
  method ClickCard(section: ProjectsSection, l: Language, i: nat)
    requires i < 6 && section.Valid()
    modifies section
    ensures section.Valid()
    ensures GetProjects(l)[i].id != "helen-doron" ==> section.selected == Some(GetProjects(l)[i])
    ensures GetProjects(l)[i].id == "helen-doron" ==> section.selected == old(section.selected)
  {
    CardsOfTable(l, i);
    section.HandleProjectClick(GetProjects(l)[i]);
  }

  /** The preview window of a selected project. */
  class ProjectWindow {
    const project: Project
    var isLoading: bool
    var key: nat
    var isMobileSize: bool

    /** Mounting starts loading at key 0 and runs the size check once. */
    constructor (project: Project, innerWidth: int)
      ensures this.project == project
      ensures isLoading && key == 0
      ensures isMobileSize <==> innerWidth < 1920
    {
      this.project := project;
      isLoading := true;
      key := 0;
      isMobileSize := innerWidth < 1920;
    }

    /** `checkScreenSize`, run on mount and on every resize. */
    method CheckScreenSize(innerWidth: int)
      modifies this
      ensures isMobileSize <==> innerWidth < 1920
      ensures isLoading == old(isLoading) && key == old(key)
    {
      isMobileSize := innerWidth < 1920;
    }

    /** `reloadIframe`: show the spinner and remount the iframe under the
      next key. */
    method ReloadIframe()
      modifies this
      ensures isLoading && key == old(key) + 1
      ensures isMobileSize == old(isMobileSize)
    {
      isLoading := true;
      key := key + 1;
    }

    /** The iframe's `onLoad`. */
    method OnLoad()
      modifies this
      ensures !isLoading && key == old(key)
      ensures isMobileSize == old(isMobileSize)
    {
      isLoading := false;
    }
  }

  /** The card's spotlight: shown on focus and hover, hidden on blur and
      leave; it follows the pointer relative to the card. */
  class SpotlightCard {
    var opacity: real
    var x: real
    var y: real

    constructor ()
      ensures opacity == 0.0 && x == 0.0 && y == 0.0
    {
      opacity := 0.0;
      x := 0.0;
      y := 0.0;
    }

    method HandleFocus()
      modifies this
      ensures opacity == 1.0 && x == old(x) && y == old(y)
    {
      opacity := 1.0;
    }

    method HandleBlur()
      modifies this
      ensures opacity == 0.0 && x == old(x) && y == old(y)
    {
      opacity := 0.0;
    }

    method HandleMouseEnter()
      modifies this
      ensures opacity == 1.0 && x == old(x) && y == old(y)
    {
      opacity := 1.0;
    }

    method HandleMouseLeave()
      modifies this
      ensures opacity == 0.0 && x == old(x) && y == old(y)
    {
      opacity := 0.0;
    }

    /** Pointer position inside the card; nothing happens before the card
      is mounted. */
    method HandleMouseMove(mounted: bool, clientX: real, clientY: real, left: real, top: real)
      modifies this
      ensures mounted ==> x == clientX - left && y == clientY - top
      ensures !mounted ==> x == old(x) && y == old(y)
      ensures opacity == old(opacity)
    {
      if !mounted {
        return;
      }
      x := clientX - left;
      y := clientY - top;
    }
  }
}
