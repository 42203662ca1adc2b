/**
 * Where a mouse or touch event says the pointer is. The drag handlers read
 * the screen position of the pointer from either kind of event.
 */
module Pointer {
  import opened Wrappers

  /** A screen position in CSS pixels. */
  datatype Point = Point(x: real, y: real)

  /**
   * An input event as the drag handlers see it: a mouse event has its own
   * `clientX`/`clientY` and no touch list; a touch event has a touch list and
   * no `clientX`/`clientY` of its own.
   */
  datatype InputEvent = Mouse(clientX: real, clientY: real) | Touch(touches: seq<Point>)

  /** The event has a position: any mouse event, or a touch event with at least one touch. */
  predicate HasPoint(e: InputEvent) {
    e.Mouse? || |e.touches| > 0
  }

  /**
   * The horizontal pick as the handlers write it, `e.clientX || (e.touches &&
   * e.touches[0].clientX)`: a `clientX` of 0 is falsy, so a mouse event at the
   * left edge falls through to `e.touches`, which it does not have, and the
   * result is `undefined` (None). On an empty touch list `touches[0].clientX`
   * throws, hence the precondition.
   */
  function SourceClientX(e: InputEvent): Option<real>
    requires HasPoint(e)
  {
    match e
    case Mouse(cx, _) => if cx != 0.0 then Some(cx) else None
    case Touch(ts) => Some(ts[0].x)
  }

  /** The vertical pick as written, the same expression on `clientY`. */
  function SourceClientY(e: InputEvent): Option<real>
    requires HasPoint(e)
  {
    match e
    case Mouse(_, cy) => if cy != 0.0 then Some(cy) else None
    case Touch(ts) => Some(ts[0].y)
  }

  /**
   * The position the drag handlers of this model use: the mouse's own
   * coordinates, or those of the first touch. It is always defined.
   */
  function Locate(e: InputEvent): Point
    requires HasPoint(e)
  {
    match e
    case Mouse(cx, cy) => Point(cx, cy)
    case Touch(ts) => ts[0]
  }

  /** Wherever the written pick yields a number, it is the coordinate `Locate` gives. */
  lemma LocateAgreesWithSource(e: InputEvent)
    requires HasPoint(e)
    ensures SourceClientX(e).Some? ==> SourceClientX(e).value == Locate(e).x
    ensures SourceClientY(e).Some? ==> SourceClientY(e).value == Locate(e).y
  {
  }

  /** The written pick loses the coordinate exactly for a mouse event at 0 on that axis; touches never lose it. */
  lemma SourceLosesOnlyZero(e: InputEvent)
    requires HasPoint(e)
    ensures SourceClientX(e).None? <==> e.Mouse? && e.clientX == 0.0
    ensures SourceClientY(e).None? <==> e.Mouse? && e.clientY == 0.0
  {
  }

  /** A mouse move along the left edge of the window: the written pick yields `undefined`, `Locate` yields x = 0. */
  lemma LeftEdgeMouseLosesX()
    ensures SourceClientX(Mouse(0.0, 240.0)).None?
    ensures Locate(Mouse(0.0, 240.0)) == Point(0.0, 240.0)
  {
  }
}
