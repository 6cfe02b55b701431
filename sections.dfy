/**
 * Section identifiers shared by the root application and the navigation bar,
 * the section-to-element-id mapping both of them use, and the arithmetic of
 * a smooth scroll that leaves room for the fixed navigation bar.
 */
module Sections {

  /** Every section the navigation bar knows about. */
  datatype Section = Home | CaseStudies | Process | Experience | Contact

  /** The sections the root application can make active ("experience" is not one of them). */
  type AppSection = s: Section | !s.Experience? witness Home

  /** The string a section identifier is written as. */
  function Name(s: Section): string
  {
    match s
    case Home => "home"
    case CaseStudies => "case-studies"
    case Process => "process"
    case Experience => "experience"
    case Contact => "contact"
  }

  /** Reading a section identifier back from its string (the tracker's `as SectionId` cast). */
  function SectionNamed(name: string): (s: Section)
    requires name in {"home", "case-studies", "process", "experience", "contact"}
    ensures Name(s) == name
  {
    if name == "home" then Home
    else if name == "case-studies" then CaseStudies
    else if name == "process" then Process
    else if name == "experience" then Experience
    else Contact
  }

  /**
   * The id of the page element a section scrolls to: the "process" section
   * lives in the element with id "tools", every other section in the element
   * named after it.
   */
  function ElementIdOf(s: Section): (id: string)
    ensures id == "tools" <==> s == Process
    ensures s != Process ==> id == Name(s)
    ensures id != "process"
  {
    if s == Process then "tools" else Name(s)
  }

  /** The element anchors the scroll tracker walks, in page order. */
  const Anchors: seq<string> := ["home", "case-studies", "tools", "contact"]

  /** The section an anchor of the scroll tracker reports: "tools" is reported as "process". */
  function SectionFromAnchor(a: string): (s: AppSection)
    requires a in Anchors
    ensures ElementIdOf(s) == a
  {
    if a == "tools" then Process else SectionNamed(a)
  }

  /** Position of a section's anchor in `Anchors`. */
  function Rank(s: AppSection): (i: nat)
    ensures i < |Anchors| && Anchors[i] == ElementIdOf(s)
  {
    match s
    case Home => 0
    case CaseStudies => 1
    case Process => 2
    case Contact => 3
  }

  lemma ElementIdRoundTrip(s: AppSection)
    ensures ElementIdOf(s) in Anchors
    ensures SectionFromAnchor(ElementIdOf(s)) == s
  {
  }

  lemma AnchorRoundTrip(i: nat)
    requires i < |Anchors|
    ensures Rank(SectionFromAnchor(Anchors[i])) == i
  {
  }

  /** Height reserved for the fixed navigation bar. */
  const NavbarOffset := 80

  /**
   * Where a smooth scroll to an element goes: the element's top relative to
   * the viewport plus the current vertical page offset is its top in the
   * document, and the target keeps it `NavbarOffset` below the top edge.
   */
  function ScrollTarget(rectTop: int, pageYOffset: int): (top: int)
    ensures ViewportTopAfterScroll(rectTop + pageYOffset, top) == NavbarOffset
  {
    rectTop + pageYOffset - NavbarOffset
  }

  /**
   * Where the window actually lands when asked to scroll to `target`: the
   * browser keeps the vertical scroll between 0 and the largest scroll the
   * document allows.
   */
  function Landing(target: int, maxScrollY: int): (y: int)
    requires 0 <= maxScrollY
    ensures 0 <= y <= maxScrollY
    ensures 0 <= target <= maxScrollY ==> y == target
    ensures target < 0 ==> y == 0
    ensures maxScrollY < target ==> y == maxScrollY
  {
    if target < 0 then 0 else if maxScrollY < target then maxScrollY else target
  }

  /** Where an element whose top is `documentTop` in the document appears once the page is scrolled to `scrollY`. */
  function ViewportTopAfterScroll(documentTop: int, scrollY: int): int
  {
    documentTop - scrollY
  }
}
