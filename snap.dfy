/** Snap navigation of script.js: wheel, key and swipe input is intercepted and
    turned into a smooth scroll to the neighbouring slide's start offset. The
    closure state of the script (the position table, `isSnapping`,
    `targetIndex` and the recorded touch positions) lives in one object. The
    browser's `window.scrollTo` request is returned to the caller; the 600 ms
    timer is the explicit event `TimeoutFired`. */
module SnapNavigation {
  import opened Options
  import opened SlidePositions

  /** A swipe must travel more than this many pixels to count. */
  const SwipeThreshold: real := 40.0
  const NextKeys: seq<string> := ["ArrowDown", "PageDown", "Space"]
  const PreviousKeys: seq<string> := ["ArrowUp", "PageUp"]

  /** `Math.max(0, Math.min(index, count - 1))`: the nearest valid slide index. */
  function ClampIndex(index: int, count: nat): (r: nat)
    requires count >= 1
    ensures r < count
    ensures 0 <= index < count ==> r == index
    ensures index < 0 ==> r == 0
    ensures index >= count ==> r == count - 1
  {
    var upper := if index <= count - 1 then index else count - 1;
    if 0 >= upper then 0 else upper
  }

  /** Absolute value of a real, as `Math.abs`. */
  function Abs(x: real): real { if x < 0.0 then -x else x }

  class SnapController {
    /** The number of slides, fixed when the page loads. */
    const count: nat
    /** The start offset of each slide (`slideInitialPositions`). */
    var positions: seq<int>
    /** True from a snap command until its timer fires; commands are dropped meanwhile. */
    var isSnapping: bool
    /** The slide the last snap was aimed at. */
    var targetIndex: int
    var touchStartY: real
    var touchEndY: real
    /** The number of 600 ms snap timers that have been started and not yet fired. */
    ghost var pendingTimeouts: nat

    /** The controller's invariant: the table has one entry per slide, the
        target is a valid slide, and exactly one timer is pending while
        snapping and none otherwise. */
    ghost predicate Valid()
      reads this
    {
      count >= 1 && |positions| == count && 0 <= targetIndex < count &&
      pendingTimeouts == if isSnapping then 1 else 0
    }

    /** A snap towards slide `index` has just been issued: the target is the
        clamped index, the machine is snapping, and a scroll to the target's
        start offset is requested. */
    ghost predicate SnappedTo(request: Option<int>, index: int)
      reads this
      requires Valid()
    {
      isSnapping && targetIndex == ClampIndex(index, count) && request == Some(positions[targetIndex])
    }

    /** Page load: the slides' heights are measured and the table is built. */
    constructor (heights: seq<nat>, viewportHeight: nat)
      requires |heights| >= 1
      ensures Valid()
      ensures count == |heights| && positions == PositionTable(heights, viewportHeight)
      ensures !isSnapping && targetIndex == 0 && touchStartY == 0.0 && touchEndY == 0.0
    {
      count := |heights|;
      positions := [];
      isSnapping := false;
      targetIndex := 0;
      touchStartY, touchEndY := 0.0, 0.0;
      pendingTimeouts := 0;
      new;
      InitializePositions(heights, viewportHeight);
    }

    /** initializePositions: rebuild the table from freshly measured heights
        (at load, 100 ms after load and on every resize). */
    method InitializePositions(heights: seq<nat>, viewportHeight: nat)
      requires |heights| == count
      modifies this
      ensures positions == PositionTable(heights, viewportHeight)
      ensures isSnapping == old(isSnapping) && targetIndex == old(targetIndex)
      ensures touchStartY == old(touchStartY) && touchEndY == old(touchEndY)
      ensures pendingTimeouts == old(pendingTimeouts)
      ensures old(Valid()) ==> Valid()
    {
      positions := [];
      var cumulativeHeight := 0;
      var i := 0;
      while i < |heights|
        invariant 0 <= i <= |heights|
        invariant positions == PositionTable(heights[..i], viewportHeight)
        invariant cumulativeHeight == TotalHeight(heights[..i], viewportHeight)
        invariant isSnapping == old(isSnapping) && targetIndex == old(targetIndex)
        invariant touchStartY == old(touchStartY) && touchEndY == old(touchEndY)
        invariant pendingTimeouts == old(pendingTimeouts)
      {
        assert heights[..i + 1][..i] == heights[..i];
        positions := positions + [cumulativeHeight];
        cumulativeHeight := cumulativeHeight + EffectiveHeight(heights[i], viewportHeight);
        i := i + 1;
      }
      assert heights[..i] == heights;
    }

    /** getCurrentSlideIndex: the last slide whose start is at or above the
        scroll offset `scrollY`, or 0 when there is none. */
    method GetCurrentSlideIndex(scrollY: int) returns (idx: nat)
      ensures idx == CurrentIndex(positions, scrollY)
      ensures forall i :: 0 <= i < |positions| && positions[i] <= scrollY ==> i <= idx
      ensures |positions| > 0 ==> idx < |positions|
    {
      idx := 0;
      for i := 0 to |positions|
        invariant idx == CurrentIndex(positions[..i], scrollY)
      {
        assert positions[..i + 1][..i] == positions[..i];
        if scrollY >= positions[i] {
          idx := i;
        }
      }
      assert positions[..|positions|] == positions;
    }

    /** scrollToSlide: clamp the index, enter Snapping, start the timer and
        request a smooth scroll to the target slide's start offset. */
    method ScrollToSlide(index: int) returns (scrollTop: int)
      requires Valid() && !isSnapping
      modifies this
      ensures Valid()
      ensures isSnapping && targetIndex == ClampIndex(index, count)
      ensures scrollTop == positions[targetIndex]
      ensures positions == old(positions)
      ensures touchStartY == old(touchStartY) && touchEndY == old(touchEndY)
    {
      var clamped := ClampIndex(index, count);
      targetIndex := clamped;
      isSnapping := true;
      scrollTop := positions[clamped];
      pendingTimeouts := pendingTimeouts + 1;
    }

    /** The wheel handler. The event is always prevented; while snapping it is
        dropped; otherwise a downward wheel goes to the next slide, an upward
        one to the previous slide, and a zero delta does nothing. */
    method Wheel(deltaY: real, scrollY: int) returns (prevented: bool, request: Option<int>)
      requires Valid()
      modifies this
      ensures Valid() && prevented
      ensures positions == old(positions)
      ensures touchStartY == old(touchStartY) && touchEndY == old(touchEndY)
      ensures old(isSnapping) || deltaY == 0.0 ==>
                request == None && isSnapping == old(isSnapping) && targetIndex == old(targetIndex)
      ensures !old(isSnapping) && deltaY > 0.0 ==> SnappedTo(request, CurrentIndex(positions, scrollY) + 1)
      ensures !old(isSnapping) && deltaY < 0.0 ==> SnappedTo(request, CurrentIndex(positions, scrollY) - 1)
    {
      if isSnapping {
        return true, None;
      }
      prevented := true;
      request := None;
      var idx := GetCurrentSlideIndex(scrollY);
      if deltaY > 0.0 {
        var top := ScrollToSlide(idx + 1);
        request := Some(top);
      } else if deltaY < 0.0 {
        var top := ScrollToSlide(idx as int - 1);
        request := Some(top);
      }
    }

    /** The keydown handler. While snapping every key is ignored and not
        prevented. ArrowDown, PageDown and Space go to the next slide,
        ArrowUp and PageUp to the previous one, both prevented; any other key
        does nothing and is not prevented. */
    method Key(code: string, scrollY: int) returns (prevented: bool, request: Option<int>)
      requires Valid()
      modifies this
      ensures Valid()
      ensures positions == old(positions)
      ensures touchStartY == old(touchStartY) && touchEndY == old(touchEndY)
      ensures old(isSnapping) || (code !in NextKeys && code !in PreviousKeys) ==>
                !prevented && request == None && isSnapping == old(isSnapping) && targetIndex == old(targetIndex)
      ensures !old(isSnapping) && code in NextKeys ==>
                prevented && SnappedTo(request, CurrentIndex(positions, scrollY) + 1)
      ensures !old(isSnapping) && code in PreviousKeys ==>
                prevented && SnappedTo(request, CurrentIndex(positions, scrollY) - 1)
    {
      if isSnapping {
        return false, None;
      }
      prevented := false;
      request := None;
      var idx := GetCurrentSlideIndex(scrollY);
      if code in NextKeys {
        prevented := true;
        var top := ScrollToSlide(idx + 1);
        request := Some(top);
      } else if code in PreviousKeys {
        prevented := true;
        var top := ScrollToSlide(idx as int - 1);
        request := Some(top);
      }
    }

    /** The touchstart handler: with at least one touch point, both the start
        and the end of the swipe are set to its vertical position. */
    method TouchStart(touchYs: seq<real>)
      requires Valid()
      modifies this
      ensures Valid()
      ensures |touchYs| > 0 ==> touchStartY == touchYs[0] && touchEndY == touchYs[0]
      ensures |touchYs| == 0 ==> touchStartY == old(touchStartY) && touchEndY == old(touchEndY)
      ensures positions == old(positions) && isSnapping == old(isSnapping) && targetIndex == old(targetIndex)
    {
      if |touchYs| > 0 {
        touchStartY := touchYs[0];
        touchEndY := touchStartY;
      }
    }

    /** The touchmove handler: with at least one touch point, the end of the
        swipe follows its vertical position. */
    method TouchMove(touchYs: seq<real>)
      requires Valid()
      modifies this
      ensures Valid()
      ensures |touchYs| > 0 ==> touchEndY == touchYs[0]
      ensures |touchYs| == 0 ==> touchEndY == old(touchEndY)
      ensures touchStartY == old(touchStartY)
      ensures positions == old(positions) && isSnapping == old(isSnapping) && targetIndex == old(targetIndex)
    {
      if |touchYs| > 0 {
        touchEndY := touchYs[0];
      }
    }

    /** The touchend handler. While snapping it is dropped; a swipe of more
        than the threshold upwards goes to the next slide, downwards to the
        previous one; a shorter swipe does nothing. */
    method TouchEnd(scrollY: int) returns (request: Option<int>)
      requires Valid()
      modifies this
      ensures Valid()
      ensures positions == old(positions)
      ensures touchStartY == old(touchStartY) && touchEndY == old(touchEndY)
      ensures old(isSnapping) || Abs(touchEndY - touchStartY) <= SwipeThreshold ==>
                request == None && isSnapping == old(isSnapping) && targetIndex == old(targetIndex)
      ensures !old(isSnapping) && touchEndY - touchStartY < -SwipeThreshold ==>
                SnappedTo(request, CurrentIndex(positions, scrollY) + 1)
      ensures !old(isSnapping) && touchEndY - touchStartY > SwipeThreshold ==>
                SnappedTo(request, CurrentIndex(positions, scrollY) - 1)
    {
      if isSnapping {
        return None;
      }
      request := None;
      var delta := touchEndY - touchStartY;
      var idx := GetCurrentSlideIndex(scrollY);
      if Abs(delta) > SwipeThreshold {
        if delta < 0.0 {
          var top := ScrollToSlide(idx + 1);
          request := Some(top);
        } else {
          var top := ScrollToSlide(idx as int - 1);
          request := Some(top);
        }
      }
    }

    /** The 600 ms timer of the pending snap fires: back to Idle, whether or
        not the smooth scroll has finished. */
    method TimeoutFired()
      requires Valid() && pendingTimeouts > 0
      modifies this
      ensures Valid() && !isSnapping
      ensures positions == old(positions) && targetIndex == old(targetIndex)
      ensures touchStartY == old(touchStartY) && touchEndY == old(touchEndY)
    {
      isSnapping := false;
      pendingTimeouts := pendingTimeouts - 1;
    }
  }

  /** Three slides of 1000 pixels, resting half way into the second one: a
      downward wheel snaps to 2000, further input is dropped until the timer
      fires, after which ArrowUp goes back to 1000. */
  method ThreeSlideSession()
  {
    ThreeSlideExample();
    var deck := new SnapController([1000, 1000, 1000], 800);
    assert deck.positions == [0, 1000, 2000];
    var prevented, request := deck.Wheel(3.0, 1500);
    assert prevented && request == Some(2000) && deck.targetIndex == 2;
    var keyPrevented, keyRequest := deck.Key("ArrowDown", 1500);
    assert !keyPrevented && keyRequest == None && deck.targetIndex == 2;
    deck.TimeoutFired();
    assert CurrentIndex([0, 1000, 2000], 2000) == 2;
    keyPrevented, keyRequest := deck.Key("ArrowUp", 2000);
    assert keyPrevented && keyRequest == Some(1000);
  }
}
