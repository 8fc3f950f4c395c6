/**
 * The scale arithmetic of `PDFViewerApp`: `zoomIn`, `zoomOut`, `fitToWidth` and
 * `fitToPage`, on exact reals.
 */
module Zoom {

  const MIN_SCALE: real := 0.1
  const MAX_SCALE: real := 5.0
  /** Each zoom step multiplies or divides the scale by this factor. */
  const ZOOM_STEP: real := 1.2
  /** The fit modes assume a US Letter page, 612 by 792 points. */
  const ASSUMED_PAGE_WIDTH: real := 612.0
  const ASSUMED_PAGE_HEIGHT: real := 792.0
  /** Pixels taken off the container's client size for padding. */
  const CONTAINER_PADDING: int := 100

  /** `Math.min` and `Math.max` on two numbers. */
  function Min(a: real, b: real): real { if a <= b then a else b }
  function Max(a: real, b: real): real { if a >= b then a else b }

  predicate InRange(s: real) { MIN_SCALE <= s <= MAX_SCALE }

  /** `Math.min(s * 1.2, 5.0)`: one step up, never past the maximum. */
  function ZoomInScale(s: real): (r: real)
    ensures r <= MAX_SCALE
    ensures r <= s * ZOOM_STEP
    ensures r == s * ZOOM_STEP || r == MAX_SCALE
    ensures InRange(s) ==> InRange(r)
  {
    Min(s * ZOOM_STEP, MAX_SCALE)
  }

  /** `Math.max(s / 1.2, 0.1)`: one step down, never below the minimum. */
  function ZoomOutScale(s: real): (r: real)
    ensures r >= MIN_SCALE
    ensures r >= s / ZOOM_STEP
    ensures r == s / ZOOM_STEP || r == MIN_SCALE
    ensures InRange(s) ==> InRange(r)
  {
    Max(s / ZOOM_STEP, MIN_SCALE)
  }

  /** `Math.max(0.1, Math.min(x, 5))`. */
  function Clamp(x: real): (r: real)
    ensures InRange(r)
    ensures InRange(x) ==> r == x
    ensures x < MIN_SCALE ==> r == MIN_SCALE
    ensures x > MAX_SCALE ==> r == MAX_SCALE
  {
    Max(MIN_SCALE, Min(x, MAX_SCALE))
  }

  /** The scale `fitToWidth` asks for, given the container's `clientWidth`. */
  function FitToWidthScale(clientWidth: int): (r: real)
    ensures InRange(r)
    ensures InRange((clientWidth - CONTAINER_PADDING) as real / ASSUMED_PAGE_WIDTH)
            ==> r * ASSUMED_PAGE_WIDTH == (clientWidth - CONTAINER_PADDING) as real
  {
    Clamp((clientWidth - CONTAINER_PADDING) as real / ASSUMED_PAGE_WIDTH)
  }

  /**
   * The scale `fitToPage` asks for: the smaller of the width and height fits, clamped.
   * Within the range the assumed page fits the padded container in both directions
   * and exactly in one; a container too small either way gives the minimum, and one
   * roomy enough both ways gives the maximum.
   */
  function FitToPageScale(clientWidth: int, clientHeight: int): (r: real)
    ensures InRange(r)
    ensures var w := (clientWidth - CONTAINER_PADDING) as real;
            var h := (clientHeight - CONTAINER_PADDING) as real;
            && (InRange(Min(w / ASSUMED_PAGE_WIDTH, h / ASSUMED_PAGE_HEIGHT)) ==>
                  && r * ASSUMED_PAGE_WIDTH <= w && r * ASSUMED_PAGE_HEIGHT <= h
                  && (r * ASSUMED_PAGE_WIDTH == w || r * ASSUMED_PAGE_HEIGHT == h))
            && (w / ASSUMED_PAGE_WIDTH < MIN_SCALE || h / ASSUMED_PAGE_HEIGHT < MIN_SCALE ==> r == MIN_SCALE)
            && (w / ASSUMED_PAGE_WIDTH > MAX_SCALE && h / ASSUMED_PAGE_HEIGHT > MAX_SCALE ==> r == MAX_SCALE)
  {
    var scaleX := (clientWidth - CONTAINER_PADDING) as real / ASSUMED_PAGE_WIDTH;
    var scaleY := (clientHeight - CONTAINER_PADDING) as real / ASSUMED_PAGE_HEIGHT;
    Clamp(Min(scaleX, scaleY))
  }

  lemma ClampMonotone(x: real, y: real)
    requires x <= y
    ensures Clamp(x) <= Clamp(y)
  {
  }

  /** Fitting the whole page never zooms further in than fitting the width. */
  lemma FitToPageNoLargerThanWidth(clientWidth: int, clientHeight: int)
    ensures FitToPageScale(clientWidth, clientHeight) <= FitToWidthScale(clientWidth)
  {
    var scaleX := (clientWidth - CONTAINER_PADDING) as real / ASSUMED_PAGE_WIDTH;
    var scaleY := (clientHeight - CONTAINER_PADDING) as real / ASSUMED_PAGE_HEIGHT;
    ClampMonotone(Min(scaleX, scaleY), scaleX);
  }

  /** Inside the range and away from the bounds, zooming in then out returns the scale. */
  lemma ZoomInThenOut(s: real)
    requires MIN_SCALE <= s && s * ZOOM_STEP <= MAX_SCALE
    ensures ZoomOutScale(ZoomInScale(s)) == s
  {
  }

  /** Inside the range and away from the bounds, zooming out then in returns the scale. */
  lemma ZoomOutThenIn(s: real)
    requires s <= MAX_SCALE && s / ZOOM_STEP >= MIN_SCALE
    ensures ZoomInScale(ZoomOutScale(s)) == s
  {
  }

  /** Below the maximum, zooming in strictly grows a positive scale; above the minimum, zooming out shrinks it. */
  lemma ZoomSteps(s: real)
    requires 0.0 < s
    ensures s < MAX_SCALE ==> ZoomInScale(s) > s
    ensures s > MIN_SCALE ==> ZoomOutScale(s) < s
  {
  }
}
