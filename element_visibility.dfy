/**
 * Where an element sits relative to the viewport
 * (src/frontend/utils/element-visibility.ts). The bounding rectangle and
 * the window's inner size are inputs.
 */
module ElementVisibility {
  import opened Common

  /** A bounding client rectangle: its bottom and right edges follow from its size. */
  datatype Rect = Rect(top: real, left: real, height: real, width: real)
  {
    function Bottom(): real { top + height }
    function Right(): real { left + width }
  }

  datatype Visibility = Visibility(
    isInViewport: bool,
    isFullyVisible: bool,
    isPartiallyVisible: bool,
    meetsThreshold: bool,
    visibilityRatio: real)

  /** The threshold used when the caller passes none. */
  const DefaultThreshold := 0.3

  /** The visible height over the whole height, or 0 for an element without height. */
  function VisibilityRatio(rect: Rect, viewportHeight: real): (ratio: real)
    ensures 0.0 <= ratio
    ensures rect.height <= 0.0 ==> ratio == 0.0
    ensures ratio <= 1.0
    ensures rect.top >= viewportHeight || rect.Bottom() <= 0.0 ==> ratio == 0.0
    ensures rect.height > 0.0 && 0.0 <= rect.top && rect.Bottom() <= viewportHeight ==> ratio == 1.0
  {
    var visibleTop := Max(0.0, rect.top);
    var visibleBottom := Min(viewportHeight, rect.Bottom());
    var visibleHeight := Max(0.0, visibleBottom - visibleTop);
    if rect.height > 0.0 then
      FractionAtMostOne(visibleHeight, rect.height);
      visibleHeight / rect.height
    else 0.0
  }

  /** A part no larger than the whole is at most all of it. */
  lemma {:induction false} FractionAtMostOne(part: real, whole: real)
    requires 0.0 <= part <= whole && whole > 0.0
    ensures 0.0 <= part / whole <= 1.0
  {
    assert part / whole * whole == part;
  }

  /** `getElementVisibility(element, threshold = 0.3)`. */
  function GetElementVisibility(rect: Rect, viewportHeight: real, viewportWidth: real, threshold: Option<real>): (v: Visibility)
    ensures v.isInViewport <==>
      rect.top < viewportHeight && rect.Bottom() > 0.0 && rect.left < viewportWidth && rect.Right() > 0.0
    ensures v.isFullyVisible <==>
      rect.top >= 0.0 && rect.left >= 0.0 && rect.Bottom() <= viewportHeight && rect.Right() <= viewportWidth
    ensures v.isPartiallyVisible <==> v.isInViewport && !v.isFullyVisible
    ensures v.visibilityRatio == VisibilityRatio(rect, viewportHeight)
    ensures v.meetsThreshold <==> v.visibilityRatio >= GetOr(threshold, DefaultThreshold)
  {
    var isInViewport := rect.top < viewportHeight && rect.Bottom() > 0.0 && rect.left < viewportWidth && rect.Right() > 0.0;
    var isFullyVisible := rect.top >= 0.0 && rect.left >= 0.0 && rect.Bottom() <= viewportHeight && rect.Right() <= viewportWidth;
    var ratio := VisibilityRatio(rect, viewportHeight);
    Visibility(isInViewport, isFullyVisible, isInViewport && !isFullyVisible, ratio >= GetOr(threshold, DefaultThreshold), ratio)
  }

  /** A fully visible element with some height is in the viewport, not partially visible, and meets every threshold up to 1. */
  lemma {:induction false} FullyVisibleMeetsAnyThreshold(rect: Rect, viewportHeight: real, viewportWidth: real, threshold: real)
    requires rect.height > 0.0 && rect.width > 0.0 && threshold <= 1.0
    requires GetElementVisibility(rect, viewportHeight, viewportWidth, Some(threshold)).isFullyVisible
    ensures var v := GetElementVisibility(rect, viewportHeight, viewportWidth, Some(threshold));
      v.isInViewport && !v.isPartiallyVisible && v.meetsThreshold
  {
  }

  /** An element that meets a positive threshold overlaps the viewport vertically. */
  lemma {:induction false} MeetingThresholdNeedsVerticalOverlap(rect: Rect, viewportHeight: real, viewportWidth: real, threshold: Option<real>)
    requires GetOr(threshold, DefaultThreshold) > 0.0
    requires GetElementVisibility(rect, viewportHeight, viewportWidth, threshold).meetsThreshold
    ensures rect.top < viewportHeight && rect.Bottom() > 0.0
  {
  }
}
