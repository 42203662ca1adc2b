/**
 * Sequences of user events after loading: button clicks, wheel turns and
 * drag gestures, each dispatched to its handler. Every reachable view keeps
 * the invariant, so the zoom stays on the grid within its bounds.
 */
module Session {
  import opened Zoom
  import opened Pointer
  import opened Interaction

  /**
   * One user event; `widgetAccepts` says whether the widget's `updateOptions`
   * call returns normally, and `onBook` whether a press is over the book.
   */
  datatype Event =
    | ZoomInClick(widgetAccepts: bool)
    | ZoomOutClick(widgetAccepts: bool)
    | WheelTurn(deltaY: real, widgetAccepts: bool)
    | Press(press: InputEvent, onBook: bool)
    | Move(move: InputEvent)
    | Release

  /** Presses and moves carry a position. */
  predicate WellFormed(ev: Event) {
    match ev
    case Press(e, _) => HasPoint(e)
    case Move(e) => HasPoint(e)
    case _ => true
  }

  /**
   * The view after one event, as the browser dispatches it: a mouse press on
   * the book that the book's capture listener swallows never reaches
   * `startDrag`.
   */
  function Step(v: View, ev: Event): View
    requires WellFormed(ev)
  {
    match ev
    case ZoomInClick(a) => ZoomIn(v, a)
    case ZoomOutClick(a) => ZoomOut(v, a)
    case WheelTurn(d, a) => Wheel(v, d, a).view
    case Press(e, onBook) => if PressReachesWrapper(v, e, onBook) then StartDrag(v, e).view else v
    case Move(e) => OnDrag(v, e).view
    case Release => EndDrag(v).view
  }

  /** The view after a sequence of events, in order. */
  function Run(v: View, evs: seq<Event>): View
    requires forall i :: 0 <= i < |evs| ==> WellFormed(evs[i])
    decreases |evs|
  {
    if evs == [] then v else Run(Step(v, evs[0]), evs[1..])
  }

  /** One event keeps the invariant and moves the zoom by one step at most. */
  lemma StepKeepsInv(v: View, ev: Event)
    requires Inv(v) && WellFormed(ev)
    ensures Inv(Step(v, ev))
    ensures var z := Step(v, ev).zoom; z == v.zoom || z == v.zoom + ZOOM_STEP || z == v.zoom - ZOOM_STEP
  {
    match ev
    case ZoomInClick(a) =>
      ZoomKeepsInv(v, a);
      if v.zoom < MAX_ZOOM { ZoomInStep(v, a); }
    case ZoomOutClick(a) =>
      ZoomKeepsInv(v, a);
      if v.zoom > MIN_ZOOM { ZoomOutStep(v, a); }
    case WheelTurn(d, a) =>
      ZoomKeepsInv(v, a);
      if v.zoom < MAX_ZOOM { ZoomInStep(v, a); }
      if v.zoom > MIN_ZOOM { ZoomOutStep(v, a); }
    case Press(e, _) => DragKeepsInv(v, e);
    case Move(e) => DragKeepsInv(v, e);
    case Release => EndDragKeepsInv(v);
  }

  /** Any sequence of events from a view that keeps the invariant leads to one that keeps it. */
  lemma {:induction false} RunKeepsInv(v: View, evs: seq<Event>)
    requires Inv(v)
    requires forall i :: 0 <= i < |evs| ==> WellFormed(evs[i])
    ensures Inv(Run(v, evs))
    decreases |evs|
  {
    if evs != [] {
      StepKeepsInv(v, evs[0]);
      RunKeepsInv(Step(v, evs[0]), evs[1..]);
    }
  }

  /**
   * Every view reachable after loading has its zoom in [0.5, 2.5] on the
   * quarter grid, the label showing 25 percent per quarter, and no pan at
   * zoom 1 or below.
   */
  lemma Reachable(hasPageFlip: bool, evs: seq<Event>)
    requires forall i :: 0 <= i < |evs| ==> WellFormed(evs[i])
    ensures var r := Run(Initial(hasPageFlip), evs);
      && MIN_ZOOM <= r.zoom <= MAX_ZOOM
      && r.zoom == Quarters(r.zoom) as real / 4.0
      && r.zoomLabel == 25 * Quarters(r.zoom)
      && (r.zoom <= 1.0 ==> r.panX == 0.0 && r.panY == 0.0)
  {
    InitialInv(hasPageFlip);
    RunKeepsInv(Initial(hasPageFlip), evs);
    var r := Run(Initial(hasPageFlip), evs);
    GridPointIsQuarter(r.zoom);
    PercentOnGrid(r.zoom);
  }

  /**
   * Three zoom-ins from the start reach 1.75 with the label at 175%, and the
   * hint is shown on each of the three (the source calls it on every
   * effective zoom-in that ends above 1, not only on crossing 1).
   */
  lemma ThreeZoomIns()
    ensures var r := Run(Initial(true), [ZoomInClick(true), ZoomInClick(true), ZoomInClick(true)]);
      r.zoom == 1.75 && r.zoomLabel == 175 && r.hintShows == 3 && !r.useMouseEvents
  {
    var v0 := Initial(true);
    InitialInv(true);
    ZoomInStep(v0, true);
    var v1 := ZoomIn(v0, true);
    ZoomKeepsInv(v0, true);
    ZoomInStep(v1, true);
    var v2 := ZoomIn(v1, true);
    ZoomKeepsInv(v1, true);
    ZoomInStep(v2, true);
    var evs := [ZoomInClick(true), ZoomInClick(true), ZoomInClick(true)];
    assert Run(v0, evs) == Run(v1, evs[1..]);
    assert Run(v1, evs[1..]) == Run(v2, evs[2..]);
  }

  /**
   * Above zoom 1, a mouse press on the book opens no drag session unless the
   * book has `pointer-events: none`: the capture listener swallows it before
   * it reaches the wrapper, and nothing changes.
   */
  lemma MousePressOnBookSwallowed(v: View, x: real, y: real)
    requires v.zoom > 1.0 && v.pointerEvents != PointerNone
    ensures Step(v, Press(Mouse(x, y), true)) == v
  {
  }

  /** Every zoom event in the sequence finds the widget accepting `updateOptions`. */
  predicate WidgetAccepts(ev: Event) {
    match ev
    case ZoomInClick(a) => a
    case ZoomOutClick(a) => a
    case WheelTurn(_, a) => a
    case _ => true
  }

  /**
   * With a widget that always accepts `updateOptions`, the fallback style is
   * never set, so after any events a mouse press on the book above zoom 1 is
   * swallowed: mouse drag-to-pan can only start from the wrapper outside the
   * book, or from a touch.
   */
  lemma {:induction false} AcceptingWidgetBlocksMouseDragOnBook(hasPageFlip: bool, evs: seq<Event>, x: real, y: real)
    requires forall i :: 0 <= i < |evs| ==> WellFormed(evs[i]) && WidgetAccepts(evs[i])
    ensures var r := Run(Initial(hasPageFlip), evs);
      r.pointerEvents == Unset
      && (r.zoom > 1.0 ==> Step(r, Press(Mouse(x, y), true)) == r)
  {
    NoFallbackStyle(Initial(hasPageFlip), evs);
  }

  /** Without a throwing `updateOptions` call, the book's `pointer-events` style is never set. */
  lemma {:induction false} NoFallbackStyle(v: View, evs: seq<Event>)
    requires v.pointerEvents == Unset
    requires forall i :: 0 <= i < |evs| ==> WellFormed(evs[i]) && WidgetAccepts(evs[i])
    ensures Run(v, evs).pointerEvents == Unset
    decreases |evs|
  {
    if evs != [] {
      var w := Step(v, evs[0]);
      assert w.pointerEvents == Unset;
      NoFallbackStyle(w, evs[1..]);
    }
  }
}
