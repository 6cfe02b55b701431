/**
 * The root application: which of its two pages is shown, which section is
 * active, how a section request scrolls the window, and how the scroll
 * position is turned back into an active section.
 */
module App {
  import opened Wrappers
  import opened Sections
  import Navigation

  // ---------------------------------------------------------------- pages

  datatype Page = HomePage | CodeNoCodePage

  /** The path of the secondary page. */
  const CodeNoCodePath := "/code-nocode-portfolio"

  /** The page a location shows: the secondary page for its own path, the home page for every other path. */
  function PageOfPath(pathname: string): (p: Page)
    ensures p == CodeNoCodePage <==> pathname == CodeNoCodePath
  {
    if pathname == CodeNoCodePath then CodeNoCodePage else HomePage
  }

  /** The path the application pushes when it switches to a page. */
  function PathOf(p: Page): (path: string)
    ensures PageOfPath(path) == p
  {
    match p
    case HomePage => "/"
    case CodeNoCodePage => CodeNoCodePath
  }

  // ------------------------------------------------------ section detection

  /** How far below the top of the window a section may start and still count as reached. */
  const ScrollThreshold := 200

  /** The element `a` exists (it has an `offsetTop`) and starts at or above `position`. */
  predicate Reached(offsetTop: map<string, int>, a: string, position: int)
  {
    a in offsetTop && offsetTop[a] <= position
  }

  /** The last of the first `k` anchors that is reached, if any. */
  function LastReached(offsetTop: map<string, int>, position: int, k: nat): (r: Option<nat>)
    requires k <= |Anchors|
    ensures r.Some? ==> r.value < k && Reached(offsetTop, Anchors[r.value], position)
  {
    if k == 0 then None
    else if Reached(offsetTop, Anchors[k - 1], position) then Some(k - 1)
    else LastReached(offsetTop, position, k - 1)
  }

  /** `LastReached` finds the highest reached anchor below `k`, and finds nothing only when none is reached. */
  lemma {:induction false} LastReachedIsHighest(offsetTop: map<string, int>, position: int, k: nat)
    requires k <= |Anchors|
    ensures LastReached(offsetTop, position, k).None? <==>
      forall j :: 0 <= j < k ==> !Reached(offsetTop, Anchors[j], position)
    ensures LastReached(offsetTop, position, k).Some? ==>
      forall j :: LastReached(offsetTop, position, k).value < j < k ==> !Reached(offsetTop, Anchors[j], position)
  {
    if k > 0 && !Reached(offsetTop, Anchors[k - 1], position) {
      LastReachedIsHighest(offsetTop, position, k - 1);
    }
  }

  /**
   * The section the scroll tracker makes active at vertical scroll `scrollY`:
   * the last anchor in page order whose element exists and starts no lower
   * than `scrollY + ScrollThreshold`, with "tools" reported as "process";
   * `prev` is kept when no anchor qualifies.
   */
  function Detect(offsetTop: map<string, int>, scrollY: int, prev: AppSection): (s: AppSection)
    ensures AnyReached(offsetTop, scrollY) ==>
      Reached(offsetTop, ElementIdOf(s), scrollY + ScrollThreshold) &&
      forall j :: Rank(s) < j < |Anchors| ==> !Reached(offsetTop, Anchors[j], scrollY + ScrollThreshold)
    ensures !AnyReached(offsetTop, scrollY) ==> s == prev
  {
    LastReachedIsHighest(offsetTop, scrollY + ScrollThreshold, |Anchors|);
    match LastReached(offsetTop, scrollY + ScrollThreshold, |Anchors|)
    case None => prev
    case Some(i) => AnchorRoundTrip(i); SectionFromAnchor(Anchors[i])
  }

  /** Some anchor has an element at or above `scrollY + ScrollThreshold`. */
  predicate AnyReached(offsetTop: map<string, int>, scrollY: int)
  {
    exists j :: 0 <= j < |Anchors| && Reached(offsetTop, Anchors[j], scrollY + ScrollThreshold)
  }

  /**
   * Detection selects section `s` (when something is reached) exactly when
   * the element of `s` is reached and no later anchor's element is.
   */
  lemma DetectSelectsLastReached(offsetTop: map<string, int>, scrollY: int, prev: AppSection, s: AppSection)
    ensures (AnyReached(offsetTop, scrollY) && Detect(offsetTop, scrollY, prev) == s) <==>
      (Reached(offsetTop, ElementIdOf(s), scrollY + ScrollThreshold) &&
       forall j :: Rank(s) < j < |Anchors| ==> !Reached(offsetTop, Anchors[j], scrollY + ScrollThreshold))
  {
    var position := scrollY + ScrollThreshold;
    LastReachedIsHighest(offsetTop, position, |Anchors|);
    ElementIdRoundTrip(s);
    var r := LastReached(offsetTop, position, |Anchors|);
    if r.Some? {
      AnchorRoundTrip(r.value);
      assert AnyReached(offsetTop, scrollY) by {
        assert Reached(offsetTop, Anchors[r.value], position);
      }
    }
  }

  /** When no anchor is reached the active section stays as it was. */
  lemma DetectKeepsPrevious(offsetTop: map<string, int>, scrollY: int, prev: AppSection)
    ensures !AnyReached(offsetTop, scrollY) <==>
      (forall q: AppSection :: Detect(offsetTop, scrollY, q) == q)
    ensures !AnyReached(offsetTop, scrollY) ==> Detect(offsetTop, scrollY, prev) == prev
  {
    var position := scrollY + ScrollThreshold;
    LastReachedIsHighest(offsetTop, position, |Anchors|);
    var r := LastReached(offsetTop, position, |Anchors|);
    if r.Some? {
      assert Reached(offsetTop, Anchors[r.value], position);
      var s := SectionFromAnchor(Anchors[r.value]);
      var q: AppSection := if s == Home then Contact else Home;
      assert Detect(offsetTop, scrollY, q) != q;
    }
  }

  /**
   * Scrolling further down never moves the active section back up the page,
   * once some section has been reached.
   */
  lemma DetectMonotone(offsetTop: map<string, int>, y1: int, y2: int, prev1: AppSection, prev2: AppSection)
    requires y1 <= y2
    requires AnyReached(offsetTop, y1)
    ensures Rank(Detect(offsetTop, y1, prev1)) <= Rank(Detect(offsetTop, y2, prev2))
  {
    var p1, p2 := y1 + ScrollThreshold, y2 + ScrollThreshold;
    LastReachedIsHighest(offsetTop, p1, |Anchors|);
    LastReachedIsHighest(offsetTop, p2, |Anchors|);
    var i := LastReached(offsetTop, p1, |Anchors|).value;
    assert Reached(offsetTop, Anchors[i], p2);
    var j := LastReached(offsetTop, p2, |Anchors|).value;
    AnchorRoundTrip(i);
    AnchorRoundTrip(j);
  }

  /**
   * The two measurements the application takes of an anchor element agree:
   * the tracker's `offsetTop` is the element's top in the document, that is
   * its viewport top plus the page offset the scroll handler uses.
   */
  predicate MeasuresAgree(offsetTop: map<string, int>, rectTop: map<string, int>, pageYOffset: int)
  {
    forall i :: 0 <= i < |Anchors| ==>
      (Anchors[i] in offsetTop <==> Anchors[i] in rectTop) &&
      (Anchors[i] in offsetTop ==> offsetTop[Anchors[i]] == rectTop[Anchors[i]] + pageYOffset)
  }

  /**
   * Scrolling to a section's element and then detecting gives that section
   * back, provided the two measurements agree, the target is within the
   * scrollable range, and every later section's element starts more than
   * `ScrollThreshold` below where the window lands.
   */
  lemma ScrollThenDetect(offsetTop: map<string, int>, rectTop: map<string, int>, pageYOffset: int,
                         maxScrollY: int, s: AppSection, prev: AppSection)
    requires 0 <= maxScrollY
    requires MeasuresAgree(offsetTop, rectTop, pageYOffset)
    requires ElementIdOf(s) in rectTop
    requires ScrollTarget(rectTop[ElementIdOf(s)], pageYOffset) <= maxScrollY
    requires forall j :: Rank(s) < j < |Anchors| && Anchors[j] in offsetTop ==>
      offsetTop[Anchors[j]] > Landing(ScrollTarget(rectTop[ElementIdOf(s)], pageYOffset), maxScrollY) + ScrollThreshold
    ensures Detect(offsetTop, Landing(ScrollTarget(rectTop[ElementIdOf(s)], pageYOffset), maxScrollY), prev) == s
  {
    var y := Landing(ScrollTarget(rectTop[ElementIdOf(s)], pageYOffset), maxScrollY);
    assert ElementIdOf(s) == Anchors[Rank(s)];
    DetectSelectsLastReached(offsetTop, y, prev, s);
  }

  // ---------------------------------------------------------------- state

  /** The root component's state. */
  class AppState {
    var theme: Navigation.Theme
    var language: Navigation.Language
    var currentPage: Page
    var activeSection: AppSection

    /** Dark theme, English, the home page and the "home" section. */
    constructor ()
      ensures theme == Navigation.Dark && language == Navigation.En
      ensures currentPage == HomePage && activeSection == Home
    {
      theme := Navigation.Dark;
      language := Navigation.En;
      currentPage := HomePage;
      activeSection := Home;
    }

    /** The section-change callback handed to the navigation bar on the secondary page. */
    method HandleNavigationSectionChange(section: AppSection)
      modifies this`activeSection
      ensures activeSection == section
    {
      activeSection := section;
    }

    /**
     * Makes `sectionId` active, then scrolls to its element if the page has
     * one; `rectTop` maps element ids to their viewport tops.
     */
    method ScrollToSection(sectionId: AppSection, rectTop: map<string, int>, pageYOffset: int)
      returns (scroll: Option<int>)
      modifies this`activeSection
      ensures activeSection == sectionId
      ensures scroll.Some? <==> ElementIdOf(sectionId) in rectTop
      ensures scroll.Some? ==>
        ViewportTopAfterScroll(rectTop[ElementIdOf(sectionId)] + pageYOffset, scroll.value) == NavbarOffset
    {
      HandleNavigationSectionChange(sectionId);
      var elementId := ElementIdOf(sectionId);
      if elementId in rectTop {
        scroll := Some(ScrollTarget(rectTop[elementId], pageYOffset));
      } else {
        scroll := None;
      }
    }

    /** The location listener: the page follows the path. */
    method HandleLocationChange(pathname: string)
      modifies this`currentPage
      ensures currentPage == PageOfPath(pathname)
    {
      if pathname == CodeNoCodePath {
        currentPage := CodeNoCodePage;
      } else {
        currentPage := HomePage;
      }
    }

    /**
     * The window scroll listener, attached only while the home page is shown:
     * walks the anchors from the last to the first and makes the first one
     * reached active.
     */
    method HandleScroll(offsetTop: map<string, int>, scrollY: int)
      modifies this`activeSection
      ensures activeSection ==
        if currentPage == HomePage then Detect(offsetTop, scrollY, old(activeSection)) else old(activeSection)
    {
      if currentPage != HomePage {
        return;
      }
      var sections := Anchors;
      var scrollPosition := scrollY + ScrollThreshold;
      var i := |sections| - 1;
      while i >= 0
        invariant -1 <= i < |sections|
        invariant LastReached(offsetTop, scrollPosition, |sections|) == LastReached(offsetTop, scrollPosition, i + 1)
        invariant activeSection == old(activeSection)
      {
        if sections[i] in offsetTop && offsetTop[sections[i]] <= scrollPosition {
          var sectionId := if sections[i] == "tools" then Process else SectionNamed(sections[i]);
          activeSection := sectionId;
          break;
        }
        i := i - 1;
      }
    }

    /** The "back" action of the secondary page: home page, "home" section, path "/" and a scroll to the top. */
    method HandleBackToHome() returns (path: string, scrollTop: int)
      modifies this`currentPage, this`activeSection
      ensures currentPage == HomePage && activeSection == Home
      ensures path == PathOf(HomePage) && PageOfPath(path) == currentPage
      ensures scrollTop == 0
    {
      path := "/";
      currentPage := HomePage;
      activeSection := Home;
      scrollTop := 0;
    }

    /** The theme button of the navigation bar. */
    method ToggleTheme()
      modifies this`theme
      ensures theme == Navigation.ToggleTheme(old(theme)) && theme != old(theme)
    {
      theme := Navigation.ToggleTheme(theme);
    }

    /** The language button of the navigation bar. */
    method ToggleLanguage()
      modifies this`language
      ensures language == Navigation.ToggleLanguage(old(language)) && language != old(language)
    {
      language := Navigation.ToggleLanguage(language);
    }

    /**
     * A click on a navigation button. The bar announces the section through
     * the callback the current page wires in (the scrolling one on the home
     * page, the plain one on the secondary page) and then does its own
     * lookup and scroll. On the home page an existing element is therefore
     * scrolled to twice, both times to the same target.
     */
    method ClickNavItem(item: AppSection, rectTop: map<string, int>, pageYOffset: int)
      returns (scrolls: seq<int>)
      modifies this`activeSection
      ensures activeSection == item
      ensures ElementIdOf(item) !in rectTop ==> scrolls == []
      ensures ElementIdOf(item) in rectTop ==>
        var target := ScrollTarget(rectTop[ElementIdOf(item)], pageYOffset);
        scrolls == if currentPage == HomePage then [target, target] else [target]
    {
      var effects := Navigation.ScrollToSection(item, rectTop, pageYOffset);
      scrolls := [];
      if currentPage == HomePage {
        var first := ScrollToSection(item, rectTop, pageYOffset);
        if first.Some? {
          scrolls := scrolls + [first.value];
        }
      } else {
        HandleNavigationSectionChange(item);
      }
      if |effects| == 2 {
        scrolls := scrolls + [effects[1].top];
      }
    }
  }
}
