/**
 * The element ids the home page actually renders, against the ids the
 * application looks up. The case-studies section is rendered with the id
 * "work", so the lookups for "case-studies" find nothing; `IntendedAnchors`
 * is the page with the id the lookups expect. The contact block sits inside
 * a positioned container, so its `offsetTop` is measured from that container
 * rather than from the top of the document.
 */
module PageAnchors {
  import opened Sections
  import Navigation
  import App

  /** Ids on the home page as rendered: hero, case studies, tools, experience and its contact block. */
  const RenderedAnchors: set<string> := {"home", "work", "tools", "experience", "contact"}

  /** The same page with the case-studies section carrying the id that the navigation code looks up. */
  const IntendedAnchors: set<string> := {"home", "case-studies", "tools", "experience", "contact"}

  /**
   * As rendered, "Case Studies" never scrolls anywhere, and the scroll
   * tracker never makes it active: it is only ever kept from before.
   */
  lemma CaseStudiesUnreachableAsRendered(
    offsetTop: map<string, int>, rectTop: map<string, int>, scrollY: int, pageYOffset: int, prev: AppSection)
    requires offsetTop.Keys <= RenderedAnchors && rectTop.Keys <= RenderedAnchors
    ensures |Navigation.ScrollToSection(CaseStudies, rectTop, pageYOffset)| == 1
    ensures App.Detect(offsetTop, scrollY, prev) == CaseStudies ==> prev == CaseStudies
  {
  }

  /** A reader half-way down the case-studies section is told they are on "home". */
  lemma CaseStudiesReportedAsHome()
    ensures App.Detect(map["home" := 0, "work" := 900, "tools" := 2000, "experience" := 3000, "contact" := 3800],
                       1200, Home) == Home
  {
  }

  /**
   * As rendered, the contact block's `offsetTop` is its distance from the top
   * of the experience container. Once the scroll position passes that much
   * smaller number, the tracker reports "contact" whatever lies in view.
   */
  lemma ContactWinsOnceItsOffsetIsPassed(offsetTop: map<string, int>, scrollY: int, prev: AppSection)
    requires "contact" in offsetTop && offsetTop["contact"] <= scrollY + App.ScrollThreshold
    ensures App.Detect(offsetTop, scrollY, prev) == Contact
  {
    assert Anchors[3] == "contact";
  }

  /**
   * The tools section starts 3000 px down the page and the contact block
   * 7000 px down, but 2000 px below the top of its container. A click on
   * "Process" scrolls to the tools section, and the tracker reports "contact".
   */
  lemma ToolsReportedAsContact()
    ensures Navigation.ScrollToSection(Process,
              map["home" := 0, "work" := 900, "tools" := 3000, "experience" := 5000, "contact" := 7000], 0)
            == [Navigation.SectionChange(Process), Navigation.ScrollTo(2920)]
    ensures App.Detect(map["home" := 0, "work" := 900, "tools" := 3000, "experience" := 5000, "contact" := 2000],
                       Landing(2920, 8000), Process) == Contact
  {
  }

  /**
   * Anchors in page order: each can be scrolled to without the window
   * stopping short at the bottom, and each starts more than
   * `ScrollThreshold` below where a scroll to any earlier one lands.
   */
  predicate Spaced(offsetTop: map<string, int>, maxScrollY: int)
    requires 0 <= maxScrollY
  {
    (forall i :: 0 <= i < |Anchors| && Anchors[i] in offsetTop ==>
      offsetTop[Anchors[i]] - NavbarOffset <= maxScrollY) &&
    (forall i, j :: 0 <= i < j < |Anchors| && Anchors[i] in offsetTop && Anchors[j] in offsetTop ==>
      offsetTop[Anchors[j]] > Landing(offsetTop[Anchors[i]] - NavbarOffset, maxScrollY) + App.ScrollThreshold)
  }

  /**
   * With the intended ids, and with every anchor's `offsetTop` measured from
   * the top of the document, every section button scrolls to its element,
   * and once the window lands the tracker reports the same section again.
   */
  lemma EverySectionReachable(offsetTop: map<string, int>, rectTop: map<string, int>, pageYOffset: int,
                              maxScrollY: int, s: AppSection, prev: AppSection)
    requires 0 <= maxScrollY
    requires offsetTop.Keys == IntendedAnchors
    requires App.MeasuresAgree(offsetTop, rectTop, pageYOffset)
    requires Spaced(offsetTop, maxScrollY)
    ensures |Navigation.ScrollToSection(s, rectTop, pageYOffset)| == 2
    ensures App.Detect(offsetTop, Landing(Navigation.ScrollToSection(s, rectTop, pageYOffset)[1].top, maxScrollY), prev) == s
  {
    var e := ElementIdOf(s);
    assert e == Anchors[Rank(s)];
    assert e in rectTop;
    App.ScrollThenDetect(offsetTop, rectTop, pageYOffset, maxScrollY, s, prev);
  }
}
