/**
 * The fixed navigation bar: theme and language toggles, the three section
 * buttons and which of them is highlighted, and the click handler that
 * announces the requested section before scrolling to its element.
 */
module Navigation {
  import opened Sections

  datatype Theme = Dark | Light

  datatype Language = En | Es

  /** The theme button: dark becomes light and light becomes dark. */
  function ToggleTheme(t: Theme): (r: Theme)
    ensures r != t
  {
    if t == Dark then Light else Dark
  }

  /** The language button: English becomes Spanish and Spanish becomes English. */
  function ToggleLanguage(l: Language): (r: Language)
    ensures r != l
  {
    if l == En then Es else En
  }

  lemma ToggleThemeInvolutive(t: Theme)
    ensures ToggleTheme(ToggleTheme(t)) == t
  {
  }

  lemma ToggleLanguageInvolutive(l: Language)
    ensures ToggleLanguage(ToggleLanguage(l)) == l
  {
  }

  /** The section buttons, in the order they are drawn. */
  const NavItems: seq<Section> := [Home, CaseStudies, Process]

  predicate Distinct(items: seq<Section>)
  {
    forall i, j :: 0 <= i < j < |items| ==> items[i] != items[j]
  }

  /**
   * Button `i` is highlighted exactly when the active section is its id; the
   * ids are distinct, so then no other button shows that section.
   */
  function IsHighlighted(activeSection: Section, i: nat): (lit: bool)
    requires i < |NavItems|
    ensures lit <==> activeSection == NavItems[i]
    ensures lit ==> forall j :: 0 <= j < |NavItems| && j != i ==> NavItems[j] != activeSection
  {
    activeSection == NavItems[i]
  }

  /** How many of the first `k` buttons are drawn highlighted. */
  function HighlightedCount(activeSection: Section, k: nat): (c: nat)
    requires k <= |NavItems|
    ensures c <= 1
    ensures c == 0 <==> forall i :: 0 <= i < k ==> !IsHighlighted(activeSection, i)
  {
    if k == 0 then 0
    else HighlightedCount(activeSection, k - 1) + (if IsHighlighted(activeSection, k - 1) then 1 else 0)
  }

  /**
   * The three buttons have distinct ids, so at most one is highlighted:
   * exactly one while the active section has a button, and none while
   * "experience" or "contact" is active.
   */
  lemma AtMostOneHighlighted(activeSection: Section)
    ensures Distinct(NavItems)
    ensures HighlightedCount(activeSection, |NavItems|) == 1 <==> activeSection in NavItems
    ensures HighlightedCount(activeSection, |NavItems|) == 0 <==> activeSection in {Experience, Contact}
  {
    if activeSection in NavItems {
      var i :| 0 <= i < |NavItems| && NavItems[i] == activeSection;
      assert IsHighlighted(activeSection, i);
    }
  }

  /** What a click on a section button does, in the order it happens. */
  datatype Effect =
    | SectionChange(section: Section)   // the parent's section-change callback
    | ScrollTo(top: int)                 // a smooth window scroll to `top`

  /**
   * A section button click: the parent is told about the requested section
   * first, whether or not its element exists; then, only when the element is
   * in the page (`rectTop` maps element ids to their viewport tops), the window
   * scrolls so that the element sits just below the navigation bar.
   */
  function ScrollToSection(sectionId: Section, rectTop: map<string, int>, pageYOffset: int): (effects: seq<Effect>)
    ensures 1 <= |effects| <= 2
    ensures effects[0] == SectionChange(sectionId)
    ensures |effects| == 2 <==> ElementIdOf(sectionId) in rectTop
    ensures |effects| == 2 ==>
      effects[1].ScrollTo? &&
      ViewportTopAfterScroll(rectTop[ElementIdOf(sectionId)] + pageYOffset, effects[1].top) == NavbarOffset
  {
    var elementId := ElementIdOf(sectionId);
    if elementId in rectTop then
      [SectionChange(sectionId), ScrollTo(ScrollTarget(rectTop[elementId], pageYOffset))]
    else
      [SectionChange(sectionId)]
  }
}
