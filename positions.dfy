/** The table of slide start offsets (script.js, initializePositions) and the
    query "which slide is the page scrolled to" (getCurrentSlideIndex). */
module SlidePositions {

  /** The height a slide occupies in the layout: its measured height, or the
      viewport height when the measurement is 0 (`offsetHeight || innerHeight`). */
  function EffectiveHeight(height: nat, viewportHeight: nat): nat
  {
    if height == 0 then viewportHeight else height
  }

  /** The sum of the effective heights of `heights`. */
  function TotalHeight(heights: seq<nat>, viewportHeight: nat): nat
  {
    if |heights| == 0 then 0
    else TotalHeight(heights[..|heights| - 1], viewportHeight)
         + EffectiveHeight(heights[|heights| - 1], viewportHeight)
  }

  /** The start offset of every slide: one entry per slide, the first at 0,
      each one the previous one plus the previous slide's effective height. */
  function PositionTable(heights: seq<nat>, viewportHeight: nat): (table: seq<int>)
    ensures |table| == |heights|
    ensures |heights| > 0 ==> table[0] == 0
    ensures forall i :: 0 < i < |heights| ==>
              table[i] == table[i - 1] + EffectiveHeight(heights[i - 1], viewportHeight)
    ensures |heights| > 0 ==>
              TotalHeight(heights, viewportHeight)
              == table[|heights| - 1] + EffectiveHeight(heights[|heights| - 1], viewportHeight)
  {
    if |heights| == 0 then []
    else
      var front := heights[..|heights| - 1];
      assert |front| > 0 ==> front[..|front| - 1] == heights[..|heights| - 2];
      PositionTable(front, viewportHeight) + [TotalHeight(front, viewportHeight)]
  }

  /** Offsets never decrease along the table. */
  lemma {:induction false} PositionTableNonDecreasing(heights: seq<nat>, viewportHeight: nat, i: nat, j: nat)
    requires i <= j < |heights|
    ensures PositionTable(heights, viewportHeight)[i] <= PositionTable(heights, viewportHeight)[j]
  {
    if i < j {
      PositionTableNonDecreasing(heights, viewportHeight, i, j - 1);
    }
  }

  /** When every slide takes up some room, offsets strictly increase. */
  lemma {:induction false} PositionTableIncreasing(heights: seq<nat>, viewportHeight: nat, i: nat, j: nat)
    requires i < j < |heights|
    requires forall k :: 0 <= k < |heights| ==> EffectiveHeight(heights[k], viewportHeight) > 0
    ensures PositionTable(heights, viewportHeight)[i] < PositionTable(heights, viewportHeight)[j]
  {
    if i < j - 1 {
      PositionTableIncreasing(heights, viewportHeight, i, j - 1);
    }
  }

  /** The index of the last slide that starts at or above offset `y`, or 0 when
      there is none (also 0 for an empty table). */
  function CurrentIndex(positions: seq<int>, y: int): (idx: nat)
    ensures |positions| == 0 ==> idx == 0
    ensures |positions| > 0 ==> idx < |positions|
    ensures forall i :: 0 <= i < |positions| && positions[i] <= y ==> i <= idx && positions[idx] <= y
    ensures (forall i :: 0 <= i < |positions| ==> y < positions[i]) ==> idx == 0
  {
    if |positions| == 0 then 0
    else if positions[|positions| - 1] <= y then |positions| - 1
    else CurrentIndex(positions[..|positions| - 1], y)
  }

  /** Scrolling further down never moves the current slide back; this holds
      for any table, sorted or not. */
  lemma CurrentIndexMonotone(positions: seq<int>, y1: int, y2: int)
    requires y1 <= y2
    ensures CurrentIndex(positions, y1) <= CurrentIndex(positions, y2)
  {
  }

  /** Once the page rests exactly on the offset of slide `t`, that slide is the
      current one, provided every slide takes up some room. */
  lemma {:induction false} SettledIndexIsTarget(heights: seq<nat>, viewportHeight: nat, t: nat)
    requires t < |heights|
    requires forall k :: 0 <= k < |heights| ==> EffectiveHeight(heights[k], viewportHeight) > 0
    ensures CurrentIndex(PositionTable(heights, viewportHeight), PositionTable(heights, viewportHeight)[t]) == t
  {
    var table := PositionTable(heights, viewportHeight);
    var idx := CurrentIndex(table, table[t]);
    if idx > t {
      PositionTableIncreasing(heights, viewportHeight, t, idx);
    }
  }

  /** Three slides of 1000 pixels start at 0, 1000 and 2000; at offset 1500 the
      second slide (index 1) is current. */
  lemma ThreeSlideExample()
    ensures PositionTable([1000, 1000, 1000], 800) == [0, 1000, 2000]
  {
    var hs: seq<nat> := [1000, 1000, 1000];
    var table := PositionTable(hs, 800);
    assert table[0] == 0;
    assert table[1] == 1000;
    assert table[2] == 2000;
    assert table == [0, 1000, 2000];
  }

  /** At offset 1500 in the table [0, 1000, 2000] the second slide (index 1) is current. */
  lemma CurrentIndexExample()
    ensures CurrentIndex([0, 1000, 2000], 1500) == 1
  {
    var ps := [0, 1000, 2000];
    assert ps[..2] == [0, 1000];
  }

  /** A slide measured at 0 pixels takes up the viewport height instead. */
  lemma ZeroHeightExample()
    ensures PositionTable([0, 500, 0], 800) == [0, 800, 1300]
  {
    var zs: seq<nat> := [0, 500, 0];
    var table := PositionTable(zs, 800);
    assert table[1] == 800;
    assert table[2] == 1300;
  }
}
