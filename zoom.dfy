/**
 * Zoom factor arithmetic of the viewer: the bounds and step, `Math.min`,
 * `Math.max`, `Math.round`, and the grid of quarter steps that every
 * reachable zoom factor lies on.
 */
module Zoom {
  /** Amount one click of the zoom buttons (or one wheel notch) changes the zoom by. */
  const ZOOM_STEP: real := 0.25
  /** Smallest zoom factor. */
  const MIN_ZOOM: real := 0.5
  /** Largest zoom factor. */
  const MAX_ZOOM: real := 2.5

  /** `Math.min` of two numbers. */
  function Min(a: real, b: real): (r: real)
    ensures r <= a && r <= b
    ensures r == a || r == b
  {
    if a <= b then a else b
  }

  /** `Math.max` of two numbers. */
  function Max(a: real, b: real): (r: real)
    ensures r >= a && r >= b
    ensures r == a || r == b
  {
    if a >= b then a else b
  }

  /** `Math.round`: the nearest integer, a half rounded towards +infinity. */
  function Round(x: real): (n: int)
    ensures n as real - 0.5 <= x < n as real + 0.5
  {
    (x + 0.5).Floor
  }

  /** Number of whole quarter steps in a zoom factor. */
  function Quarters(z: real): int {
    (z * 4.0).Floor
  }

  /** A zoom factor within the bounds that is a whole number of quarters. */
  predicate OnGrid(z: real) {
    MIN_ZOOM <= z <= MAX_ZOOM && Quarters(z) as real == z * 4.0
  }

  /** The percentage the zoom label shows, `Math.round(zoom * 100)`. */
  function Percent(z: real): int {
    Round(z * 100.0)
  }

  /** The zoom after an effective zoom-in, `Math.min(maxZoom, zoom + zoomStep)`. */
  function StepUp(z: real): real {
    Min(MAX_ZOOM, z + ZOOM_STEP)
  }

  /** The zoom after an effective zoom-out, `Math.max(minZoom, zoom - zoomStep)`. */
  function StepDown(z: real): real {
    Max(MIN_ZOOM, z - ZOOM_STEP)
  }

  /** Every grid point is q/4 for a q in 2..10. */
  lemma GridPointIsQuarter(z: real)
    requires OnGrid(z)
    ensures 2 <= Quarters(z) <= 10 && z == Quarters(z) as real / 4.0
  {
  }

  /** Every q/4 for a q in 2..10 is a grid point with q quarters. */
  lemma QuarterIsGridPoint(q: int)
    requires 2 <= q <= 10
    ensures OnGrid(q as real / 4.0) && Quarters(q as real / 4.0) == q
  {
    var w := q as real / 4.0;
    assert w * 4.0 == q as real;
  }

  /** On the grid, the label shows exactly 25 percent per quarter step, between 50% and 250%. */
  lemma PercentOnGrid(z: real)
    requires OnGrid(z)
    ensures Percent(z) == 25 * Quarters(z)
    ensures 50 <= Percent(z) <= 250
  {
    var q := Quarters(z);
    assert z * 100.0 == (25 * q) as real;
    assert (z * 100.0 + 0.5).Floor == 25 * q;
  }

  /** Below the maximum, a zoom-in moves exactly one step up: `Math.min` never shortens the step. */
  lemma StepUpExact(z: real)
    requires OnGrid(z) && z < MAX_ZOOM
    ensures StepUp(z) == z + ZOOM_STEP
    ensures OnGrid(StepUp(z)) && Quarters(StepUp(z)) == Quarters(z) + 1
  {
    var q := Quarters(z);
    assert q < 10;
    assert (z + ZOOM_STEP) * 4.0 == (q + 1) as real;
  }

  /** Above the minimum, a zoom-out moves exactly one step down: `Math.max` never shortens the step. */
  lemma StepDownExact(z: real)
    requires OnGrid(z) && z > MIN_ZOOM
    ensures StepDown(z) == z - ZOOM_STEP
    ensures OnGrid(StepDown(z)) && Quarters(StepDown(z)) == Quarters(z) - 1
  {
    var q := Quarters(z);
    assert q > 2;
    assert (z - ZOOM_STEP) * 4.0 == (q - 1) as real;
  }
}
