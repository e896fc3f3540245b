# Slide presentation: snap scrolling and scroll effects

A model of the logic inside `script.js`, a browser script for a full-screen
slide presentation. It does three things:
- it keeps a table of the offsets where each slide starts;
- it animates each slide as the page scrolls: its top corners get rounder or
  squarer, and a darkening overlay appears;
- it captures wheel, keyboard and swipe input and turns it into smooth
  scrolls from one slide to the next.

The browser is replaced by inputs:
- measured slide heights and the viewport height;
- the scroll offset;
- the top edge of each slide relative to the viewport.

The `window.scrollTo` request a handler makes is returned as an
`Option<int>` target offset. The 600 ms timer is an explicit event.

Modules:
- `Options`: the `Option` datatype.
- `SlidePositions` (`positions.dfy`):
  - the table of slide start offsets, a prefix sum of slide heights in which
    a slide measured at 0 takes the viewport height;
  - the "current slide" query, which returns the last slide starting at or
    above the scroll offset.
- `SlideEffects` (`effects.dfy`):
  - the corner-radius formula and the overlay-opacity formula, in exact
    `real` arithmetic;
  - one frame of `updateOnScroll`.
- `SnapNavigation` (`snap.dfy`): the class `SnapController`, a two-state
  machine (Idle or Snapping).
  - It holds the script's closure state: the position table, `isSnapping`,
    `targetIndex` and the recorded touch positions.
  - It has one method per event handler.
  - A ghost counter records the pending 600 ms timers. The invariant
    `Valid()` says a timer is pending exactly while the machine is Snapping,
    so two snap timers can never overlap.
  - `ThreeSlideSession` is a client of the class. On three slides of 1000
    pixels, resting at offset 1500, it shows four steps: a wheel tick snaps
    to 2000; a key pressed while snapping is dropped; the timer fires; then
    ArrowUp snaps back to 1000.

Two edge cases, in a viewport of height 0, go the way the code decides
rather than the informal description "rounded at the bottom, square at the
top":
- A slide whose top is at 0 gets the full radius (200), not 0, because the
  "at or below the viewport bottom" test is made first. `BorderRadius`
  states the exact conditions.
- The overlay is 0 "at or below the viewport bottom" only when the next
  slide's top is also positive. With a top of 0, the code gives 0.7.

## Model

| member | source | states |
|---|---|---|
| SlidePositions.PositionTable | script.js:10-17 | one entry per slide; the first is 0; each entry is the previous one plus the previous slide's height, or plus the viewport height when that height is 0; the last entry plus the last slide's height is the total height |
| SlidePositions.PositionTableNonDecreasing | script.js:10-17 | offsets never decrease along the table |
| SlidePositions.PositionTableIncreasing | script.js:10-17 | when every slide takes up some room, offsets strictly increase |
| SlidePositions.ThreeSlideExample | script.js:10-17 | three slides of 1000 pixels start at 0, 1000 and 2000 |
| SlidePositions.ZeroHeightExample | script.js:15 | slides measured [0, 500, 0] in an 800-pixel viewport start at 0, 800 and 1300 |
| SlidePositions.CurrentIndex | script.js:105-112 | 0 for an empty table, otherwise an index in range; no slide after it starts at or above the offset; it starts at or above the offset whenever any slide does; 0 when none does |
| SlidePositions.CurrentIndexMonotone | script.js:105-112 | scrolling further down never lowers the current index, for any table |
| SlidePositions.SettledIndexIsTarget | script.js:105-118 | when every slide takes up some room and the page rests on slide t's start offset, the current index is t |
| SlidePositions.CurrentIndexExample | script.js:105-112 | at offset 1500 in [0, 1000, 2000] the current index is 1 |
| SnapNavigation.ClampIndex | script.js:115 | the result is a valid index; it equals the input when the input is valid, 0 below the range, the last index above it |
| SnapNavigation.SnapController.constructor | script.js:205 | the table is built from the measured heights; the machine starts Idle, aimed at slide 0, touch positions 0; the invariant holds |
| SnapNavigation.SnapController.InitializePositions | script.js:10-17 | the table becomes the position table of the new heights; nothing else changes |
| SnapNavigation.SnapController.GetCurrentSlideIndex | script.js:105-112 | the loop returns the current index: the last slide starting at or above the offset, or 0 |
| SnapNavigation.SnapController.ScrollToSlide | script.js:114-121 | the target becomes the clamped index; the machine becomes Snapping with one timer pending; the scroll request is the target's start offset; the table and touch positions are unchanged |
| SnapNavigation.SnapController.Wheel | script.js:124-138 | always prevented; while Snapping, or with a zero delta, no request and no change; a positive delta snaps to current+1 (clamped), a negative one to current-1 |
| SnapNavigation.SnapController.Key | script.js:141-153 | while Snapping nothing happens and nothing is prevented; ArrowDown, PageDown and Space snap to current+1, ArrowUp and PageUp to current-1, both prevented; any other key is not prevented and changes nothing |
| SnapNavigation.SnapController.TouchStart | script.js:160-165 | with a touch point, the swipe start and end both become its vertical position; without one, nothing changes |
| SnapNavigation.SnapController.TouchMove | script.js:167-171 | with a touch point, the swipe end follows it; the start is unchanged |
| SnapNavigation.SnapController.TouchEnd | script.js:173-184 | while Snapping, or for a swipe of at most 40 pixels, nothing happens; a longer upward swipe snaps to current+1, a longer downward swipe to current-1 |
| SnapNavigation.SnapController.TimeoutFired | script.js:120 | the pending timer fires and the machine returns to Idle; target, table and touch positions are unchanged |
| SlideEffects.BorderRadius | script.js:32-70 | the radius is in [0, 200]; 0 for slide 0; for other slides it is 200 exactly when the top is at or below the viewport bottom, 0 exactly when the top is at or above 0 and below the viewport bottom, and 200·top/height in between |
| SlideEffects.BorderRadiusNonDecreasing | script.js:45-69 | a slide lower in the viewport is never less rounded |
| SlideEffects.OverlayOpacity | script.js:74-96 | the opacity is in [0, 0.7]; 0 for the last slide; 0.7 once the next slide's top is at or above 0; 0 while the next slide's top is positive and at or below the viewport bottom; strictly between 0 and 0.7 while the next slide is coming in |
| SlideEffects.OverlayOpacityNonIncreasing | script.js:78-93 | the lower the next slide is, the lighter the overlay |
| SlideEffects.OverlayTracksNextRadius | script.js:45-93 | in a viewport of positive height, opacity(i) = 0.7·(1 − radius(i+1)/200): the overlay darkens exactly as the next slide squares up |
| SlideEffects.UpdateOnScroll | script.js:20-98 | one style per slide: its radius from BorderRadius, and its overlay opacity from OverlayOpacity when it has an overlay, none otherwise |

## Left out

- DOM reads and style writes are not modelled; heights, the viewport height, the scroll offset and rectangle tops are parameters, and computed styles are returned (`querySelectorAll`, `getBoundingClientRect`, `offsetHeight`, `style`).
- `window.scrollTo` with smooth behaviour is a browser call; it is modelled only as the returned target offset.
- Real timers are not modelled: the 600 ms snap timer is the `TimeoutFired` event, with no wall-clock time. The 100 ms re-initialisation timer is a call of `InitializePositions` followed by `UpdateOnScroll`.
- The `requestAnimationFrame`/`ticking` throttle is event-loop scheduling, not logic.
- Listener registration, `passive` options, and the DOMContentLoaded and resize wiring are not modelled; resize is a call of `InitializePositions` then `UpdateOnScroll`.
- The unused `slideStartPos` value (script.js:29) has no effect on any output.
- Floating-point rounding of radius and opacity is not modelled: the formulas use exact `real` arithmetic.
- SnapNavigation.SnapController.constructor: it requires at least one slide. With zero slides the clamp yields index 0, and the table has no entry 0.
- SnapNavigation.SnapController.ScrollToSlide: it requires the machine to be Idle. Every handler that calls it checks this first. Called while Snapping, the script would start a second timer, which the model does not capture.
- SnapNavigation.SnapController.GetCurrentSlideIndex: the scroll offset is an integer pixel count. A browser may report a fractional `scrollY`; the comparisons are the same either way. The `pageYOffset` fallback and the optional explicit offset argument are not modelled, because every call passes the current offset.
- Wheel deltas, touch positions and rectangle tops are exact reals. Slide heights and the viewport height are natural numbers, as `offsetHeight` and `innerHeight` are.
