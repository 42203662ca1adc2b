/**
 * The zoom/pan/drag interaction layer as functions on a value `View` that
 * holds the module-level variables of the viewer and the DOM state its
 * handlers write. One function per handler of the source; the class in
 * module Viewer is proved to compute the same states in place.
 */
module Interaction {
  import opened Wrappers
  import opened Zoom
  import opened Pointer

  /** The book element's inline `pointer-events` style. */
  datatype PointerStyle = Unset | PointerNone | PointerAuto

  /** The book element's CSS transform, `scale(s) translate(tx px, ty px)`. */
  datatype Transform = Transform(scale: real, translateX: real, translateY: real)

  /**
   * Everything the handlers read and write: `currentZoom`, the pan, the drag
   * session, the percentage in the zoom label, the wrapper's `draggable` and
   * `dragging` classes, whether the page-flip widget exists, its
   * `useMouseEvents` option, the book's `pointer-events` style and
   * `transform` (None while never set), and how often the pan hint was shown.
   */
  datatype View = View(
    zoom: real,
    panX: real,
    panY: real,
    isDragging: bool,
    dragStartX: real,
    dragStartY: real,
    dragStartPanX: real,
    dragStartPanY: real,
    zoomLabel: int,
    draggable: bool,
    dragging: bool,
    hasPageFlip: bool,
    useMouseEvents: bool,
    pointerEvents: PointerStyle,
    transform: Option<Transform>,
    hintShows: nat)

  /**
   * What an event handler leaves behind: the new view, and whether it
   * suppressed the event (`preventDefault`, and `stopPropagation` for the drag
   * handlers).
   */
  datatype Handled = Handled(view: View, consumed: bool)

  /**
   * The state once loading has wired the handlers: zoom 1, no pan, no drag,
   * label "100%", the widget built with mouse events on, no inline styles.
   */
  function Initial(hasPageFlip: bool): View {
    View(1.0, 0.0, 0.0, false, 0.0, 0.0, 0.0, 0.0, Percent(1.0), false, false,
         hasPageFlip, true, Unset, None, 0)
  }

  /** The transform on screen: an unset transform shows the page at scale 1 without translation. */
  function Shown(v: View): Transform {
    match v.transform
    case None => Transform(1.0, 0.0, 0.0)
    case Some(t) => t
  }

  /** `updateZoomDisplay`: the label shows the rounded percentage. */
  function UpdateZoomDisplay(v: View): View {
    v.(zoomLabel := Percent(v.zoom))
  }

  /** `applyTransform`: the book shows the current zoom and pan. */
  function ApplyTransform(v: View): View {
    v.(transform := Some(Transform(v.zoom, v.panX, v.panY)))
  }

  /** `updateCursor`: `draggable` above zoom 1; at or below 1 the class goes and the pan is reset. */
  function UpdateCursor(v: View): View {
    if v.zoom > 1.0 then v.(draggable := true)
    else v.(draggable := false, panX := 0.0, panY := 0.0)
  }

  /**
   * `updatePageFlipState`: ask the widget to handle the mouse only at zoom 1 or
   * below; when the request throws, set the book's `pointer-events` instead.
   * `widgetAccepts` says whether `updateOptions` returned normally.
   */
  function UpdatePageFlipState(v: View, widgetAccepts: bool): View {
    if !v.hasPageFlip then v
    else if widgetAccepts then v.(useMouseEvents := v.zoom <= 1.0)
    else v.(pointerEvents := if v.zoom > 1.0 then PointerNone else PointerAuto)
  }

  /** `showPanHint`, counting the times the hint is shown; it does nothing at zoom 1 or below. */
  function ShowPanHint(v: View): View {
    if v.zoom > 1.0 then v.(hintShows := v.hintShows + 1) else v
  }

  /** The four updates that follow every effective zoom change, in the source's order. */
  function Refresh(v: View, widgetAccepts: bool): View {
    ApplyTransform(UpdatePageFlipState(UpdateCursor(UpdateZoomDisplay(v)), widgetAccepts))
  }

  /** `zoomIn`: below the maximum, step up, refresh, and show the hint when the zoom ends above 1. */
  function ZoomIn(v: View, widgetAccepts: bool): View {
    if v.zoom < MAX_ZOOM then
      var w := Refresh(v.(zoom := StepUp(v.zoom)), widgetAccepts);
      if w.zoom > 1.0 then ShowPanHint(w) else w
    else v
  }

  /** `zoomOut`: above the minimum, step down and refresh. */
  function ZoomOut(v: View, widgetAccepts: bool): View {
    if v.zoom > MIN_ZOOM then Refresh(v.(zoom := StepDown(v.zoom)), widgetAccepts)
    else v
  }

  /**
   * `startDrag`: ignored at zoom 1 or below; otherwise opens a drag session
   * that records the pointer position and the pan, and suppresses the event.
   */
  function StartDrag(v: View, e: InputEvent): Handled
    requires v.zoom > 1.0 ==> HasPoint(e)
  {
    if v.zoom <= 1.0 then Handled(v, false)
    else
      var p := Locate(e);
      Handled(v.(isDragging := true, dragging := true,
                 dragStartX := p.x, dragStartY := p.y,
                 dragStartPanX := v.panX, dragStartPanY := v.panY), true)
  }

  /**
   * `onDrag`: only inside a session and above zoom 1; the pan becomes the
   * start pan plus the pointer's travel since the start, times `1 / zoom`.
   */
  function OnDrag(v: View, e: InputEvent): Handled
    requires v.isDragging && v.zoom > 1.0 ==> HasPoint(e)
  {
    if !v.isDragging || v.zoom <= 1.0 then Handled(v, false)
    else
      var p := Locate(e);
      var dragScale := 1.0 / v.zoom;
      Handled(ApplyTransform(v.(panX := v.dragStartPanX + (p.x - v.dragStartX) * dragScale,
                                panY := v.dragStartPanY + (p.y - v.dragStartY) * dragScale)), true)
  }

  /** `endDrag`: closes an open session and drops the `dragging` class; without a session it does nothing. */
  function EndDrag(v: View): Handled {
    if !v.isDragging then Handled(v, false)
    else Handled(v.(isDragging := false, dragging := false), true)
  }

  /** The wheel handler: always `preventDefault`; a negative `deltaY` zooms in, any other zooms out. */
  function Wheel(v: View, deltaY: real, widgetAccepts: bool): Handled {
    Handled(if deltaY < 0.0 then ZoomIn(v, widgetAccepts) else ZoomOut(v, widgetAccepts), true)
  }

  /** The capture-phase click and mousedown listeners on the book swallow the event above zoom 1. */
  predicate BlocksBookPress(v: View) {
    v.zoom > 1.0
  }

  /**
   * Whether a press reaches the wrapper's `startDrag` listener. The book lies
   * inside the wrapper, and its capture-phase `mousedown` listener stops the
   * propagation of every mouse press on the book above zoom 1, so such a press
   * never bubbles to the wrapper. The exception is `pointer-events: none` on
   * the book: the book is then transparent to the mouse and the press lands on
   * the wrapper itself. Touch presses are not intercepted. `onBook` says the
   * pointer is over the book.
   */
  predicate PressReachesWrapper(v: View, e: InputEvent, onBook: bool) {
    !(e.Mouse? && onBook && BlocksBookPress(v) && v.pointerEvents != PointerNone)
  }

  /** The context-menu listener on the book suppresses the menu above zoom 1. */
  predicate BlocksContextMenu(v: View) {
    v.zoom > 1.0
  }

  /**
   * The invariant every reachable view keeps: the zoom is on the grid and the
   * label matches it; no pan at zoom 1 or below; `draggable` exactly above 1;
   * the `dragging` class exactly during a session; the screen shows the
   * current zoom and pan; and, with a widget, page turning is switched off
   * by at least one means above zoom 1, while at or below 1 the last request
   * to the widget or the last fallback style asked for it to be on. (That
   * request does not make page turning work: see the two stale-state lemmas
   * at the end of this module.)
   */
  predicate Inv(v: View) {
    && OnGrid(v.zoom)
    && v.zoomLabel == Percent(v.zoom)
    && (v.zoom <= 1.0 ==> v.panX == 0.0 && v.panY == 0.0)
    && v.draggable == (v.zoom > 1.0)
    && v.dragging == v.isDragging
    && Shown(v) == Transform(v.zoom, v.panX, v.panY)
    && (v.hasPageFlip && v.zoom > 1.0 ==> !v.useMouseEvents || v.pointerEvents == PointerNone)
    && (v.hasPageFlip && v.zoom <= 1.0 ==> v.useMouseEvents || v.pointerEvents == PointerAuto)
  }

  lemma InitialInv(hasPageFlip: bool)
    ensures Inv(Initial(hasPageFlip))
    ensures Initial(hasPageFlip).zoomLabel == 100
  {
    PercentOnGrid(1.0);
  }

  /**
   * A zoom-in at the maximum and a zoom-out at the minimum change nothing at
   * all. This states the guards of `zoomIn` and `zoomOut` as a decision rule;
   * it follows from the definitions, and what the zoom operations preserve is
   * proved in ZoomKeepsInv and Session.StepKeepsInv.
   */
  lemma ZoomAtBoundIsNoOp(v: View, widgetAccepts: bool)
    ensures v.zoom >= MAX_ZOOM ==> ZoomIn(v, widgetAccepts) == v
    ensures v.zoom <= MIN_ZOOM ==> ZoomOut(v, widgetAccepts) == v
  {
  }

  /**
   * An effective zoom-in moves the zoom up by exactly one step and the label
   * by 25 points, and shows the hint once exactly when the new zoom is above 1.
   */
  lemma ZoomInStep(v: View, widgetAccepts: bool)
    requires Inv(v) && v.zoom < MAX_ZOOM
    ensures ZoomIn(v, widgetAccepts).zoom == v.zoom + ZOOM_STEP
    ensures ZoomIn(v, widgetAccepts).zoomLabel == v.zoomLabel + 25
    ensures ZoomIn(v, widgetAccepts).hintShows == v.hintShows + (if v.zoom + ZOOM_STEP > 1.0 then 1 else 0)
  {
    StepUpExact(v.zoom);
    PercentOnGrid(v.zoom);
    PercentOnGrid(StepUp(v.zoom));
  }

  /** An effective zoom-out moves the zoom down by exactly one step and the label by 25 points, and shows no hint. */
  lemma ZoomOutStep(v: View, widgetAccepts: bool)
    requires Inv(v) && v.zoom > MIN_ZOOM
    ensures ZoomOut(v, widgetAccepts).zoom == v.zoom - ZOOM_STEP
    ensures ZoomOut(v, widgetAccepts).zoomLabel == v.zoomLabel - 25
    ensures ZoomOut(v, widgetAccepts).hintShows == v.hintShows
  {
    StepDownExact(v.zoom);
    PercentOnGrid(v.zoom);
    PercentOnGrid(StepDown(v.zoom));
  }

  /**
   * After the updates of any zoom change: at zoom 1 or below the pan is 0
   * whatever it was and the wrapper is not `draggable`; above 1 the pan is
   * kept and the wrapper is `draggable`; the screen shows the new state; the
   * zoom and the drag session are untouched.
   */
  lemma RefreshPan(v: View, widgetAccepts: bool)
    ensures var r := Refresh(v, widgetAccepts);
      && r.zoom == v.zoom
      && r.isDragging == v.isDragging && r.dragging == v.dragging
      && (v.zoom <= 1.0 ==> r.panX == 0.0 && r.panY == 0.0 && !r.draggable)
      && (v.zoom > 1.0 ==> r.panX == v.panX && r.panY == v.panY && r.draggable)
      && Shown(r) == Transform(r.zoom, r.panX, r.panY)
  {
  }

  /**
   * After the updates of any zoom change, the widget gating: without a widget
   * nothing changes; when the widget accepts, it handles the mouse exactly at
   * zoom 1 or below; when it throws, the book's `pointer-events` becomes "none"
   * above 1 and "auto" otherwise.
   */
  lemma RefreshPageFlip(v: View, widgetAccepts: bool)
    ensures var r := Refresh(v, widgetAccepts);
      && (!v.hasPageFlip ==> r.useMouseEvents == v.useMouseEvents && r.pointerEvents == v.pointerEvents)
      && (v.hasPageFlip && widgetAccepts ==>
            r.useMouseEvents == (v.zoom <= 1.0) && r.pointerEvents == v.pointerEvents)
      && (v.hasPageFlip && !widgetAccepts ==>
            r.useMouseEvents == v.useMouseEvents
            && r.pointerEvents == (if v.zoom > 1.0 then PointerNone else PointerAuto))
  {
  }

  /** Zooming in and out keeps the invariant. */
  lemma ZoomKeepsInv(v: View, widgetAccepts: bool)
    requires Inv(v)
    ensures Inv(ZoomIn(v, widgetAccepts))
    ensures Inv(ZoomOut(v, widgetAccepts))
  {
    if v.zoom < MAX_ZOOM {
      StepUpExact(v.zoom);
    }
    if v.zoom > MIN_ZOOM {
      StepDownExact(v.zoom);
    }
  }

  /**
   * Drag gating: a press at zoom 1 or below, a move outside a session or at
   * zoom 1 or below, and a release outside a session change nothing. This
   * states the handlers' guards as a decision rule; what the drag handlers
   * preserve is proved in DragKeepsInv, EndDragKeepsInv and
   * Session.StepKeepsInv.
   */
  lemma DragGating(v: View, e: InputEvent)
    ensures v.zoom <= 1.0 ==> StartDrag(v, e) == Handled(v, false)
    ensures !v.isDragging || v.zoom <= 1.0 ==> OnDrag(v, e) == Handled(v, false)
    ensures !v.isDragging ==> EndDrag(v) == Handled(v, false)
  {
  }

  /** A release during a session ends it and drops the `dragging` class, leaving zoom, pan and transform as they are. */
  lemma EndDragCloses(v: View)
    requires v.isDragging
    ensures var r := EndDrag(v);
      && r.consumed && !r.view.isDragging && !r.view.dragging
      && r.view.zoom == v.zoom && r.view.panX == v.panX && r.view.panY == v.panY
      && r.view.transform == v.transform
  {
  }

  /**
   * The pan formula: after a press at `e0` above zoom 1 and a move to `e`, the
   * pan is the pan at the press plus the pointer's travel divided by the zoom.
   */
  lemma DragPan(v: View, e0: InputEvent, e: InputEvent)
    requires v.zoom > 1.0 && HasPoint(e0) && HasPoint(e)
    ensures var w := StartDrag(v, e0).view;
      var r := OnDrag(w, e).view;
      && r.panX == v.panX + (Locate(e).x - Locate(e0).x) / v.zoom
      && r.panY == v.panY + (Locate(e).y - Locate(e0).y) / v.zoom
      && r.zoom == v.zoom
      && Shown(r) == Transform(v.zoom, r.panX, r.panY)
  {
  }

  /** Moves are measured from the press, not accumulated: a move followed by another is the later move alone. */
  lemma MovesFromStart(v: View, e1: InputEvent, e2: InputEvent)
    requires HasPoint(e1) && HasPoint(e2)
    ensures OnDrag(OnDrag(v, e1).view, e2) == OnDrag(v, e2)
  {
  }

  /** At zoom 2, dragging from pan (0, 0) by (100, 0) screen pixels pans by (50, 0). */
  lemma DragAtZoomTwo(v: View)
    requires v.zoom == 2.0 && v.panX == 0.0 && v.panY == 0.0
    ensures var w := StartDrag(v, Mouse(300.0, 200.0)).view;
      var r := OnDrag(w, Mouse(400.0, 200.0)).view;
      r.panX == 50.0 && r.panY == 0.0
  {
  }

  /** Pressing and moving keep the invariant. */
  lemma DragKeepsInv(v: View, e: InputEvent)
    requires Inv(v)
    ensures v.zoom > 1.0 ==> HasPoint(e) ==> Inv(StartDrag(v, e).view)
    ensures v.isDragging && v.zoom > 1.0 ==> HasPoint(e) ==> Inv(OnDrag(v, e).view)
  {
  }

  /** Releasing keeps the invariant. */
  lemma EndDragKeepsInv(v: View)
    requires Inv(v)
    ensures Inv(EndDrag(v).view)
  {
  }

  /**
   * The wheel always suppresses scrolling; a negative `deltaY` is a zoom-in,
   * zero or positive a zoom-out. This states the handler's decision rule;
   * what a wheel turn preserves is proved in Session.StepKeepsInv.
   */
  lemma WheelRule(v: View, deltaY: real, widgetAccepts: bool)
    ensures Wheel(v, deltaY, widgetAccepts).consumed
    ensures deltaY < 0.0 ==> Wheel(v, deltaY, widgetAccepts).view == ZoomIn(v, widgetAccepts)
    ensures deltaY >= 0.0 ==> Wheel(v, deltaY, widgetAccepts).view == ZoomOut(v, widgetAccepts)
  {
  }

  /** A wheel-down (or a zero `deltaY`) at the minimum zoom still suppresses scrolling and changes nothing. */
  lemma WheelDownAtMinimum(v: View, deltaY: real, widgetAccepts: bool)
    requires v.zoom == MIN_ZOOM && deltaY >= 0.0
    ensures Wheel(v, deltaY, widgetAccepts) == Handled(v, true)
  {
  }

  /**
   * Defence in depth: in a reachable view, whenever the book swallows clicks
   * and presses, page turning is also off in the widget or by
   * `pointer-events: none`. Only that direction is a guarantee: when presses
   * get through, the last request merely asked for page turning to be on
   * (the widget's option, or `pointer-events: auto`), which does not switch
   * it on (StaleMouseOptionAfterMixedOutcomes).
   */
  lemma PressBlockingMatchesWidget(v: View)
    requires Inv(v) && v.hasPageFlip
    ensures BlocksBookPress(v) ==> !v.useMouseEvents || v.pointerEvents == PointerNone
    ensures !BlocksBookPress(v) ==> v.useMouseEvents || v.pointerEvents == PointerAuto
    ensures BlocksBookPress(v) == v.draggable == BlocksContextMenu(v)
  {
  }

  /**
   * When the widget throws once and accepts later, the fallback style stays:
   * zoom in with the widget throwing, zoom out with it accepting, and the book
   * is back at zoom 1 with the widget handling the mouse yet `pointer-events`
   * still "none", since the accepting branch never restores the style.
   */
  lemma StaleFallbackAfterMixedOutcomes()
    ensures var r := ZoomOut(ZoomIn(Initial(true), false), true);
      r.zoom == 1.0 && r.useMouseEvents && r.pointerEvents == PointerNone
  {
  }

  /**
   * The other stale case: zoom in with the widget accepting, zoom out with it
   * throwing, and the book is back at zoom 1 letting presses through, with
   * `pointer-events: auto` but the widget's mouse handling still off, since
   * the throwing branch never restores the option.
   */
  lemma StaleMouseOptionAfterMixedOutcomes()
    ensures var r := ZoomOut(ZoomIn(Initial(true), true), false);
      && Inv(r) && r.zoom == 1.0 && !BlocksBookPress(r)
      && !r.useMouseEvents && r.pointerEvents == PointerAuto
  {
    InitialInv(true);
    ZoomKeepsInv(Initial(true), true);
    ZoomKeepsInv(ZoomIn(Initial(true), true), false);
  }
}
