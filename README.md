# Portfolio navigation logic in Dafny

This project models the small amount of logic in a single-page portfolio site
and proves properties about it. The site is a React application with a fixed
navigation bar. It also has an image carousel, used inside the case-study
modal, and a horizontal scroll indicator component, which none of the files
in this model renders. Four parts are modelled:

- **Root application** (`app.dfy`, module `App`). This covers:
  - the two-page switch keyed on the URL path;
  - the active section, and the navigation callback that sets it and
    smooth-scrolls the window to the section's element, leaving 80 px for
    the navigation bar;
  - the window scroll tracker. It walks the anchors `home`, `case-studies`,
    `tools`, `contact` from last to first and makes the first one whose
    element starts no lower than `scrollY + 200` active, reporting `tools`
    as `process`;
  - the "back to home" action.

  The component's state is the class `App.AppState`. The tracker is the
  method `HandleScroll`, a reverse loop with an early exit, proved against
  the function `Detect`.
- **Navigation bar** (`navigation.dfy`, module `Navigation`). This covers the
  theme and language toggles, which button is highlighted, and the button
  handler. The handler announces the section first and then scrolls only if
  the section's element exists. The section ids, the section→element-id map
  and the scroll-target arithmetic are shared with the root application in
  `sections.dfy` (module `Sections`).
- **Scroll indicator** (`scroll_indicator.dfy`, module `ScrollIndicator`).
  This covers:
  - the edge predicates, with 5 px of tolerance;
  - the arrows' opacity targets;
  - the velocity measured against the listener's last `scrollLeft`;
  - the wheel pulse;
  - the four mutually exclusive render branches and the centre hint.

  The listener's state is the class `ScrollIndicator.Indicator`. Its timeout
  callbacks are methods that the environment calls.
- **Image carousel** (`image_carousel.dfy`, module `ImageCarousel`). This
  covers the current index, which moves cyclically with next and previous
  and jumps with a dot click. It also covers autoplay, which is armed only
  while autoplay is on and the pointer is away, and which arrows, dots and
  badge are drawn. The state is the class `ImageCarousel.Carousel`.

`page_anchors.dfy` (module `PageAnchors`) compares the element ids that the
home page actually renders with the ids that the navigation code looks up,
and the contact block's measured `offsetTop` with its top in the document.
See "## Findings".

DOM measurements are inputs. `offsetTop` and `getBoundingClientRect().top`
are maps from element id to an integer; a missing key means
`getElementById` found nothing. A requested window scroll is an output value.

The root component modelled here scrolls vertically. src/App.tsx has no
wheel redirection, no contact latch and no scroll lock, so the model has
none either.

## Model

| member | source | states |
|---|---|---|
| Sections.SectionNamed | src/App.tsx:94-95 | Reading an identifier string back as a section gives the section with that name. |
| Sections.ElementIdOf | src/App.tsx:25-26 | The element id is "tools" exactly for "process" and the section's own name otherwise. It is never "process". |
| Sections.SectionFromAnchor | src/App.tsx:94 | The section a tracker anchor reports is one whose element id is that anchor. "tools" is reported as "process". The result is always an application section id. |
| Sections.Rank | src/App.tsx:88 | Each application section has a position in the anchor list, and its element id sits there. |
| Sections.ElementIdRoundTrip | src/App.tsx:88-94 | Every application section's element id is a tracker anchor. Reading that anchor back gives the same section. |
| Sections.AnchorRoundTrip | src/App.tsx:88-94 | Reading an anchor as a section and taking that section's position gives the anchor's index again. |
| Sections.ScrollTarget | src/App.tsx:30-32 | After scrolling to the target, the element's top sits exactly 80 px below the viewport top. The element's document position is its viewport top plus `pageYOffset`. |
| Sections.Landing | src/App.tsx:34-37 | Where a requested window scroll lands: always within `[0, maxScrollY]`, exactly on the target when the target is in range, at 0 below the range and at the bottom above it. |
| Navigation.ToggleTheme | src/components/Navigation.tsx:46-48 | The toggle always changes the theme. With two themes, dark becomes light and light becomes dark. |
| Navigation.ToggleLanguage | src/components/Navigation.tsx:50-52 | The toggle always changes the language: en becomes es and es becomes en. |
| Navigation.ToggleThemeInvolutive | src/components/Navigation.tsx:46-48 | Toggling the theme twice restores it. |
| Navigation.ToggleLanguageInvolutive | src/components/Navigation.tsx:50-52 | Toggling the language twice restores it. |
| Navigation.IsHighlighted | src/components/Navigation.tsx:68-72 | A button is highlighted exactly when the active section is its id. When it is, no other button has that id. |
| Navigation.HighlightedCount | src/components/Navigation.tsx:68-72 | Among the first `k` buttons at most one is highlighted, and none exactly when none of them matches the active section. |
| Navigation.AtMostOneHighlighted | src/components/Navigation.tsx:21-25 | The three button ids are distinct, and at most one button is highlighted. None is highlighted exactly when "experience" or "contact" is active. |
| Navigation.ScrollToSection | src/components/Navigation.tsx:27-44 | The section-change callback always comes first, with the requested id. A scroll follows only when the mapped element exists, and its target leaves the element 80 px below the top. |
| App.PageOfPath | src/App.tsx:52-58 | The secondary page is shown exactly for the path "/code-nocode-portfolio". Every other path shows home. |
| App.PathOf | src/App.tsx:73-109 | The path pushed for a page reads back as that page: "/" for home (src/App.tsx:109) and "/code-nocode-portfolio" for the secondary page (src/App.tsx:73). |
| App.LastReached | src/App.tsx:91-97 | A found index is below the bound, and its element exists and starts at or above the scroll position. |
| App.LastReachedIsHighest | src/App.tsx:91-97 | Nothing is found exactly when no anchor is reached. A found anchor is the highest reached one, with no later anchor reached. |
| App.Detect | src/App.tsx:87-98 | When some element is reached, the detected section's element is reached and no later anchor's element is. When none is reached, the previous section is kept. |
| App.DetectSelectsLastReached | src/App.tsx:87-98 | Detection picks section `s` exactly when `s`'s element exists at or above `scrollY + 200` and no later anchor's element does. |
| App.DetectKeepsPrevious | src/App.tsx:91-98 | When no element is reached, the active section is left unchanged, and only then does every previous value survive. |
| App.DetectMonotone | src/App.tsx:91-97 | Once some section is reached, scrolling further down never selects a section earlier in the page. |
| App.ScrollThenDetect | src/App.tsx:30-98 | Scrolling to a section's element (its page top minus 80) and then detecting where the window lands reports that section. This needs: the tracker's `offsetTop` equal to the page top the scroll measures, a target within the scrollable range, and every later section starting more than 200 px below the landing. |
| App.AppState.constructor | src/App.tsx:13-16 | The app starts with the dark theme, English, the home page and the "home" section. These are the `useState` values before the mount effect runs. |
| App.AppState.HandleNavigationSectionChange | src/App.tsx:18-20 | The active section becomes the requested one. |
| App.AppState.ScrollToSection | src/App.tsx:22-39 | The active section becomes the requested one even when no element exists. A scroll is issued exactly when the mapped element exists, and it leaves the element 80 px below the top. |
| App.AppState.HandleLocationChange | src/App.tsx:52-58 | The current page becomes the page of the path. |
| App.AppState.HandleScroll | src/App.tsx:84-99 | The reverse loop with an early exit sets the active section to `Detect` of the old one, but only while the home page is shown. Otherwise nothing changes. |
| App.AppState.HandleBackToHome | src/App.tsx:107-112 | Page and active section are both reset to home. The pushed path "/" reads back as home, and the window scrolls to 0. |
| App.AppState.ToggleTheme | src/components/Navigation.tsx:46-48 | The app's theme becomes the toggled one, which differs from the old one. |
| App.AppState.ToggleLanguage | src/components/Navigation.tsx:50-52 | The app's language becomes the toggled one, which differs from the old one. |
| App.AppState.ClickNavItem | src/App.tsx:134-141 | A navigation click always makes the item active. On the home page an existing element is scrolled to twice, by the app's callback and by the bar, with the same target. On the secondary page it is scrolled to once. A missing element gets no scroll. |
| PageAnchors.CaseStudiesUnreachableAsRendered | src/components/CaseStudies.tsx:252 | With the ids as rendered, a "Case Studies" click issues no scroll. The tracker reports "case-studies" only if it was already active. |
| PageAnchors.CaseStudiesReportedAsHome | src/App.tsx:88-98 | A concrete layout as rendered: a reader 300 px into the case-studies section is reported as "home". |
| PageAnchors.ContactWinsOnceItsOffsetIsPassed | src/components/Experience.tsx:337-338 | Once `scrollY + 200` passes the contact block's `offsetTop`, the tracker reports "contact", whatever else is reached. |
| PageAnchors.ToolsReportedAsContact | src/components/Experience.tsx:195-202 | A concrete layout as rendered: a "Process" click scrolls to the tools section at 3000 px, and because the contact block's `offsetTop` is 2000 (measured from its container), the tracker reports "contact" there. |
| PageAnchors.EverySectionReachable | src/App.tsx:88 | With the intended ids, `offsetTop` taken from the top of the document, and spaced sections, every section click scrolls. Detection where the window lands then reports that section. |
| ScrollIndicator.AtStart | src/components/ScrollIndicator.tsx:41 | The left edge counts as reached when at most 5 px are scrolled away from it. |
| ScrollIndicator.AtEnd | src/components/ScrollIndicator.tsx:42 | The right edge counts as reached when at most 5 px of content lie beyond it. This is the left-edge test on the mirrored track. |
| ScrollIndicator.CanLeft | src/components/ScrollIndicator.tsx:44 | Scrolling left is possible exactly when more than 5 px lie to the left, so the track is not at 0. |
| ScrollIndicator.CanRight | src/components/ScrollIndicator.tsx:45 | Scrolling right is possible exactly when more than 5 px lie to the right. This is scrolling left on the mirrored track, and there is hidden content on the right. |
| ScrollIndicator.TrackEdges | src/components/ScrollIndicator.tsx:41-45 | On a clamped track, the left edge cannot scroll left and the right edge cannot scroll right. An overflow of at most 5 px scrolls neither way, and both ways needs more than 10 px of overflow. |
| ScrollIndicator.OpacityTarget | src/components/ScrollIndicator.tsx:50-52 | The opacity target is 1 exactly when the direction is possible, and 0 exactly when it is not. |
| ScrollIndicator.Abs | src/components/ScrollIndicator.tsx:55 | The velocity is the non-negative distance between the two positions. |
| ScrollIndicator.WheelPulse | src/components/ScrollIndicator.tsx:77-98 | The right arrow pulses exactly for a mainly horizontal gesture with `deltaX > 0` when the track can go right. The left arrow pulses exactly for `deltaX < 0` when it can go left. The two never pulse together. |
| ScrollIndicator.RenderedBranch | src/components/ScrollIndicator.tsx:137-284 | Exactly one branch is drawn: nothing, left-only, right-only or both. Each matches its own guard in the source. |
| ScrollIndicator.ArrowsFollowDirections | src/components/ScrollIndicator.tsx:141-284 | A left arrow is drawn exactly when the track can scroll left, and a right arrow exactly when it can scroll right. |
| ScrollIndicator.CenterHintShown | src/components/ScrollIndicator.tsx:287 | The hint shows exactly when an arrow branch is drawn, the reminder is armed (some direction is possible and the track is not scrolling), and velocity is below 10. |
| ScrollIndicator.Indicator.constructor | src/components/ScrollIndicator.tsx:28-34 | With a track, mounting records the current position and runs one update: the directions follow the track, velocity is 0, and the object invariant holds. Without a track nothing is attached and nothing is drawn. |
| ScrollIndicator.Indicator.UpdateScrollState | src/components/ScrollIndicator.tsx:36-71 | The directions and opacity targets follow the new metrics. Velocity is the distance from the last position, which becomes the current one. The flag is set to scrolling and both timeouts are pending. The pulse state is unchanged. |
| ScrollIndicator.Indicator.ScrollTimeoutFires | src/components/ScrollIndicator.tsx:62-64 | The scrolling flag clears, and the invariant holds. |
| ScrollIndicator.Indicator.VelocityTimeoutFires | src/components/ScrollIndicator.tsx:68-70 | Velocity returns to 0, and the invariant holds. |
| ScrollIndicator.Indicator.Remount | src/components/ScrollIndicator.tsx:109-116 | Re-attaching the listener restarts the last position at the current one, so velocity is 0. The track is scrolling, both timeouts are pending again, the pulse scales and nudges are unchanged, and the invariant holds. |
| ScrollIndicator.Indicator.HandleWheel | src/components/ScrollIndicator.tsx:77-98 | The pulse is `WheelPulse` of the current directions. The pulsed arrow gets scale 1.3 and a 5 px nudge outward, and the other arrow is unchanged. |
| ScrollIndicator.Indicator.PulseEnds | src/components/ScrollIndicator.tsx:85-95 | After a pulse, that arrow returns to scale 1 and no nudge, and the other is unchanged. |
| ScrollIndicator.Indicator.ReminderTick | src/components/ScrollIndicator.tsx:119-132 | While armed, the arrows of the possible directions swell to 1.12, and the others are unchanged. The swollen sides are reported for the reset. |
| ScrollIndicator.Indicator.ReminderEnds | src/components/ScrollIndicator.tsx:125-131 | 800 ms later each swollen arrow returns to scale 1, whatever the state is by then, and the other arrow is unchanged. |
| ImageCarousel.Next | src/components/ImageCarousel.tsx:17-19 | The next index stays in `[0, n)` and is one further on, wrapping from `n-1` to 0. |
| ImageCarousel.Prev | src/components/ImageCarousel.tsx:21-23 | The previous index stays in `[0, n)` and is one back, wrapping from 0 to `n-1`. |
| ImageCarousel.NextThenPrev | src/components/ImageCarousel.tsx:17-23 | Next then previous, and previous then next, return the original index. |
| ImageCarousel.AdvanceNoWrap | src/components/ImageCarousel.tsx:18 | Before the last slide, `k` steps forward move exactly `k` places. |
| ImageCarousel.FullCycle | src/components/ImageCarousel.tsx:18 | `n` successive steps forward return to the starting index. |
| ImageCarousel.AutoplayArmed | src/components/ImageCarousel.tsx:29-34 | The interval runs only for an autoplaying carousel, never while hovered, and always when autoplay is on and the pointer is away. |
| ImageCarousel.ArrowsShown | src/components/ImageCarousel.tsx:65 | Arrows are drawn exactly when there is more than one image and autoplay is not running. |
| ImageCarousel.PausedBadgeShown | src/components/ImageCarousel.tsx:93 | The "Paused" badge shows exactly for an autoplaying carousel whose interval is stopped by hovering. |
| ImageCarousel.DotsOfferAnotherSlide | src/components/ImageCarousel.tsx:109-116 | With the current index in range, dots are drawn exactly when some dot leads to another image. Then exactly one dot is current. |
| ImageCarousel.OneActiveDot | src/components/ImageCarousel.tsx:111-116 | Exactly one index below `count` equals the current index when it is in range, and none otherwise. Whether the dots are drawn at all is stated by `DotsOfferAnotherSlide`. |
| ImageCarousel.Carousel.constructor | src/components/ImageCarousel.tsx:12-15 | The carousel starts at index 0, not hovered, with the interval armed exactly when autoplay is on. |
| ImageCarousel.Carousel.NextSlide | src/components/ImageCarousel.tsx:17-19 | The index becomes `Next` of the old one and stays in range. |
| ImageCarousel.Carousel.PrevSlide | src/components/ImageCarousel.tsx:21-23 | The index becomes `Prev` of the old one and stays in range. |
| ImageCarousel.Carousel.GoToSlide | src/components/ImageCarousel.tsx:25-27 | The index becomes exactly the dot's index, and that dot is the only current one. |
| ImageCarousel.Carousel.AutoplayTick | src/components/ImageCarousel.tsx:29-34 | An armed interval moves the carousel on by one slide. |
| ImageCarousel.Carousel.MouseEnter | src/components/ImageCarousel.tsx:46 | Hovering stops the autoplay interval. |
| ImageCarousel.Carousel.MouseLeave | src/components/ImageCarousel.tsx:47 | Leaving re-arms the interval exactly when autoplay is on. |

## Left out

- Time is not modelled. This covers every timer (the 150 ms, 200 ms and 800 ms timeouts, the 100 ms poll, the 3 s reminder interval and the carousel's interval length). Their callbacks are methods the environment calls: `ScrollTimeoutFires`, `VelocityTimeoutFires`, `PulseEnds`, `ReminderTick`, `ReminderEnds` and `AutoplayTick`. The 100 ms poll is one more call of `UpdateScrollState`. So the model does not say when a callback runs, only what it does.
- ScrollTimeoutFires, VelocityTimeoutFires, ReminderTick and CenterHintShown are callable in any order. In the source the 100 ms poll (src/components/ScrollIndicator.tsx:107) calls `updateScrollState`, which re-arms the 150 ms and 200 ms timeouts, so neither fires while the listener is attached. The track then stays "scrolling", the reminder never arms and the centre hint never shows. The model does not capture this, because it has no time.
- Remount: re-attaching always runs with a track. Losing the track after mounting, which cancels the timeouts and leaves the flags as they are, is not modelled.
- Spring and motion-value animation is not modelled: only the target values set on them are kept (opacity 0/1, scale 1, 1.12 or 1.3, nudge 0/±5 px).
- ScrollThenDetect and EverySectionReachable take the tracker's `offsetTop` as the element's top in the document, that is its viewport top plus `pageYOffset`. This holds for the hero, case-studies and tools sections. It does not hold for the contact block as rendered (see "## Findings").
- DOM measurement and the window scroll are not modelled. `offsetTop`, `getBoundingClientRect().top`, `pageYOffset`, `scrollY`, `scrollLeft`, `scrollWidth`, `clientWidth` and wheel deltas are integer inputs, and fractional pixels are not represented. `window.scrollTo` is an output value, and `Landing` gives where it ends up for a given largest scroll.
- Browser history and listeners are not modelled: `history.pushState` is only the returned path, and the `popstate`, scroll, wheel and click listener registration and cleanup are absent. The document-wide interception of links to the secondary page (src/App.tsx:67-81) is not modelled; its path is covered by `PathOf`.
- The effects also call their handlers once directly. `handleLocationChange()` runs on mount (src/App.tsx:60), and the "initial check" `handleScroll()` runs every time the home page is entered (src/App.tsx:102), right after `handleBackToHome` too, where it can replace the "home" section that handler sets. These are further environment calls of `HandleLocationChange` and `HandleScroll`; the model does not fix when they happen.
- Applying the theme as a class on the document root and body (src/App.tsx:41-48), and all rendered markup, labels and colours, are presentation only.
- Unmounting the scroll indicator is not modelled. Re-attachment after a direction change is `Remount`.
- The carousel with no images is left out: the source divides by zero there, so the carousel requires at least one image.
- The static content sections, the case-study modal, the decorative backgrounds, the wave divider and the custom cursor have no navigation logic and are not part of this model.

## Findings

| source | as written | input that shows it | evidently intended | confidence | as-written member | corrected member |
|---|---|---|---|---|---|---|
| src/components/CaseStudies.tsx:252 | The case-studies section is rendered with id "work". src/App.tsx:26, src/App.tsx:88 and src/components/Navigation.tsx:31 look up "case-studies". | Offsets home 0, work 900, tools 2000, experience 3000, contact 3800 with `scrollY` 1200 are reported as "home". A click on "Case Studies", or the hero's "view work" link, sets the highlight but issues no scroll. | The section carries the id "case-studies", so clicks scroll to it and the tracker reports it. | high, not executed | PageAnchors.CaseStudiesUnreachableAsRendered | PageAnchors.EverySectionReachable |
| src/components/Experience.tsx:337-338 | The contact block sits inside a positioned container (src/components/Experience.tsx:195, src/components/Experience.tsx:202), so its `offsetTop` is measured from that container. src/App.tsx:93 compares it with the page's scroll position. | Page tops home 0, work 900, tools 3000, experience 5000, contact 7000, with the contact block 2000 px below its container's top. A "Process" click scrolls to 2920, and the tracker reports "contact". | The tracker compares the contact block's top in the document (its viewport top plus the page offset) with the scroll position. | medium, not executed | PageAnchors.ToolsReportedAsContact | App.ScrollThenDetect |
