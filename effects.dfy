/** The per-frame visual effects of script.js's updateOnScroll: the rounding of
    each slide's top corners and the darkening overlay that grows as the next
    slide slides in. Geometry is viewport-relative and exact (`real`). */
module SlideEffects {
  import opened Options

  const MaxBorderRadius: real := 200.0
  const MinBorderRadius: real := 0.0
  /** The overlay never gets darker than this. */
  const MaxOverlayOpacity: real := 0.7

  function Min(a: real, b: real): real { if a <= b then a else b }

  function Max(a: real, b: real): real { if a >= b then a else b }

  /** How far a slide has travelled from the viewport bottom (0) to the
      viewport top (1), as updateOnScroll computes it. */
  function RoundingProgress(top: real, windowHeight: real): real
  {
    if top >= windowHeight then 0.0
    else if top <= 0.0 then 1.0
    else Max(0.0, Min(1.0, (windowHeight - top) / windowHeight))
  }

  /** The radius of the top corners of slide `index` whose top edge is at `top`
      in the viewport. The first slide is never rounded; every other slide is
      fully rounded exactly while its top is at or below the viewport bottom,
      square exactly once its top reaches the viewport top, and in between the
      radius is proportional to the distance of its top from the viewport top. */
  function BorderRadius(index: nat, top: real, windowHeight: real): (radius: real)
    ensures MinBorderRadius <= radius <= MaxBorderRadius
    ensures index == 0 ==> radius == 0.0
    ensures index > 0 ==> (radius == MaxBorderRadius <==> top >= windowHeight)
    ensures index > 0 ==> (radius == MinBorderRadius <==> top <= 0.0 && top < windowHeight)
    ensures index > 0 && 0.0 < top < windowHeight ==> radius == MaxBorderRadius * top / windowHeight
  {
    if index == 0 then 0.0
    else
      var progress := RoundingProgress(top, windowHeight);
      assert 0.0 < top < windowHeight ==> progress == (windowHeight - top) / windowHeight by {
        if 0.0 < top < windowHeight {
          FractionInUnitInterval(windowHeight - top, windowHeight);
        }
      }
      assert 0.0 < top < windowHeight ==>
               MaxBorderRadius * (1.0 - progress) == MaxBorderRadius * top / windowHeight;
      var borderRadius := MaxBorderRadius * (1.0 - progress);
      Max(Min(borderRadius, MaxBorderRadius), MinBorderRadius)
  }

  /** A part strictly between 0 and the whole makes a fraction strictly between 0 and 1. */
  lemma FractionInUnitInterval(part: real, whole: real)
    requires 0.0 < part < whole
    ensures 0.0 < part / whole < 1.0
  {
    var f := part / whole;
    assert f * whole == part;
    if f >= 1.0 {
      assert false;
    }
  }

  /** The overlay opacity of slide `index` given the viewport tops of all
      slides: 0 for the last slide, 0 while the next slide's top is still at
      or below the viewport bottom, the maximum once the next slide's top is at
      or above the viewport top, and strictly in between while the next slide
      is coming in. */
  function OverlayOpacity(index: nat, tops: seq<real>, windowHeight: real): (opacity: real)
    requires index < |tops|
    ensures 0.0 <= opacity <= MaxOverlayOpacity
    ensures index == |tops| - 1 ==> opacity == 0.0
    ensures index < |tops| - 1 && tops[index + 1] <= 0.0 ==> opacity == MaxOverlayOpacity
    ensures index < |tops| - 1 && tops[index + 1] > 0.0 && tops[index + 1] >= windowHeight ==> opacity == 0.0
    ensures index < |tops| - 1 && 0.0 < tops[index + 1] < windowHeight ==> 0.0 < opacity < MaxOverlayOpacity
  {
    if index < |tops| - 1 then
      var nextSlideTop := tops[index + 1];
      if nextSlideTop < windowHeight && nextSlideTop > 0.0 then
        FractionInUnitInterval(nextSlideTop, windowHeight);
        var progress := 1.0 - nextSlideTop / windowHeight;
        progress * MaxOverlayOpacity
      else if nextSlideTop <= 0.0 then MaxOverlayOpacity
      else 0.0
    else 0.0
  }

  /** Moving a slide down the viewport never makes its corners less round. */
  lemma BorderRadiusNonDecreasing(index: nat, top1: real, top2: real, windowHeight: real)
    requires top1 <= top2
    ensures BorderRadius(index, top1, windowHeight) <= BorderRadius(index, top2, windowHeight)
  {
  }

  lemma DivideMonotone(a: real, b: real, c: real)
    requires a <= b && c > 0.0
    ensures a / c <= b / c
  {
  }

  /** Moving the next slide down the viewport never darkens the overlay. */
  lemma OverlayOpacityNonIncreasing(index: nat, tops1: seq<real>, tops2: seq<real>, windowHeight: real)
    requires |tops1| == |tops2| && index < |tops1| - 1
    requires tops1[index + 1] <= tops2[index + 1]
    ensures OverlayOpacity(index, tops1, windowHeight) >= OverlayOpacity(index, tops2, windowHeight)
  {
    var t1, t2 := tops1[index + 1], tops2[index + 1];
    if 0.0 < t1 < windowHeight && 0.0 < t2 < windowHeight {
      DivideMonotone(t1, t2, windowHeight);
    }
  }

  /** In a viewport of positive height, the darkening of slide `index` and the
      rounding of the slide after it are driven by the same geometry: the
      overlay is at its maximum exactly when the next slide is square, and
      fades linearly as the next slide's radius grows. */
  lemma OverlayTracksNextRadius(index: nat, tops: seq<real>, windowHeight: real)
    requires windowHeight > 0.0 && index + 1 < |tops|
    ensures OverlayOpacity(index, tops, windowHeight)
            == MaxOverlayOpacity * (1.0 - BorderRadius(index + 1, tops[index + 1], windowHeight) / MaxBorderRadius)
  {
  }

  /** What updateOnScroll writes for one slide: the radius of its top corners
      and, when the slide has an overlay, the overlay's opacity. */
  datatype SlideStyle = SlideStyle(borderRadius: real, overlayOpacity: Option<real>)

  /** One frame of updateOnScroll: the style of every slide, given the
      viewport tops of all slides and which of them carry an overlay. */
  method UpdateOnScroll(tops: seq<real>, hasOverlay: seq<bool>, windowHeight: real)
    returns (styles: seq<SlideStyle>)
    requires |hasOverlay| == |tops|
    ensures |styles| == |tops|
    ensures forall i :: 0 <= i < |tops| ==> styles[i].borderRadius == BorderRadius(i, tops[i], windowHeight)
    ensures forall i :: 0 <= i < |tops| ==>
              styles[i].overlayOpacity == if hasOverlay[i] then Some(OverlayOpacity(i, tops, windowHeight)) else None
  {
    styles := [];
    var index := 0;
    while index < |tops|
      invariant 0 <= index <= |tops|
      invariant |styles| == index
      invariant forall i :: 0 <= i < index ==> styles[i].borderRadius == BorderRadius(i, tops[i], windowHeight)
      invariant forall i :: 0 <= i < index ==>
                  styles[i].overlayOpacity == if hasOverlay[i] then Some(OverlayOpacity(i, tops, windowHeight)) else None
    {
      var radius := BorderRadius(index, tops[index], windowHeight);
      var overlay := if hasOverlay[index] then Some(OverlayOpacity(index, tops, windowHeight)) else None;
      styles := styles + [SlideStyle(radius, overlay)];
      index := index + 1;
    }
  }
}
