/**
 * The viewer's interaction state as the source keeps it: module-level
 * variables and DOM properties that the handlers reassign in place. Each
 * method is proved to leave the state that the matching function of module
 * Interaction computes, and to keep Interaction.Inv.
 */
module Viewer {
  import opened Wrappers
  import opened Zoom
  import opened Pointer
  import I = Interaction

  class BookViewer {
    var currentZoom: real
    var panX: real
    var panY: real
    var isDragging: bool
    var dragStartX: real
    var dragStartY: real
    var dragStartPanX: real
    var dragStartPanY: real
    /** The percentage shown in the zoom label. */
    var zoomLabel: int
    /** The wrapper's `draggable` class. */
    var draggable: bool
    /** The wrapper's `dragging` class. */
    var dragging: bool
    /** Whether the page-flip widget was built. */
    const hasPageFlip: bool
    /** The widget's `useMouseEvents` option. */
    var useMouseEvents: bool
    /** The book's inline `pointer-events` style. */
    var pointerEvents: I.PointerStyle
    /** The book's inline `transform`, None while never set. */
    var transform: Option<I.Transform>
    /** How many times the pan hint was shown. */
    var hintShows: nat

    /** The fields as a value of the specification. */
    function State(): I.View
      reads this
    {
      I.View(currentZoom, panX, panY, isDragging, dragStartX, dragStartY, dragStartPanX, dragStartPanY,
             zoomLabel, draggable, dragging, hasPageFlip, useMouseEvents, pointerEvents, transform, hintShows)
    }

    ghost predicate Valid()
      reads this
    {
      I.Inv(State())
    }

    /** The state once loading has built the widget (or not) and wired the handlers. */
    constructor (hasPageFlip: bool)
      ensures State() == I.Initial(hasPageFlip)
      ensures Valid()
    {
      currentZoom := 1.0;
      panX, panY := 0.0, 0.0;
      isDragging := false;
      dragStartX, dragStartY := 0.0, 0.0;
      dragStartPanX, dragStartPanY := 0.0, 0.0;
      zoomLabel := Percent(1.0);
      draggable, dragging := false, false;
      this.hasPageFlip := hasPageFlip;
      useMouseEvents := true;
      pointerEvents := I.Unset;
      transform := None;
      hintShows := 0;
      new;
      I.InitialInv(hasPageFlip);
    }

    method UpdateZoomDisplay()
      modifies this
      ensures State() == I.UpdateZoomDisplay(old(State()))
    {
      zoomLabel := Percent(currentZoom);
    }

    method ApplyTransform()
      modifies this
      ensures State() == I.ApplyTransform(old(State()))
    {
      transform := Some(I.Transform(currentZoom, panX, panY));
    }

    method UpdateCursor()
      modifies this
      ensures State() == I.UpdateCursor(old(State()))
    {
      if currentZoom > 1.0 {
        draggable := true;
      } else {
        draggable := false;
        panX := 0.0;
        panY := 0.0;
      }
    }

    /** `widgetAccepts` says whether the widget's `updateOptions` call returns normally. */
    method UpdatePageFlipState(widgetAccepts: bool)
      modifies this
      ensures State() == I.UpdatePageFlipState(old(State()), widgetAccepts)
    {
      if !hasPageFlip {
        return;
      }
      if currentZoom > 1.0 {
        if widgetAccepts {
          useMouseEvents := false;
        } else {
          pointerEvents := I.PointerNone;
        }
      } else {
        if widgetAccepts {
          useMouseEvents := true;
        } else {
          pointerEvents := I.PointerAuto;
        }
      }
    }

    method ShowPanHint()
      modifies this
      ensures State() == I.ShowPanHint(old(State()))
    {
      if currentZoom > 1.0 {
        hintShows := hintShows + 1;
      }
    }

    method ZoomIn(widgetAccepts: bool)
      modifies this
      ensures State() == I.ZoomIn(old(State()), widgetAccepts)
      ensures old(Valid()) ==> Valid()
    {
      if currentZoom < MAX_ZOOM {
        currentZoom := Min(MAX_ZOOM, currentZoom + ZOOM_STEP);
        UpdateZoomDisplay();
        UpdateCursor();
        UpdatePageFlipState(widgetAccepts);
        ApplyTransform();
        if currentZoom > 1.0 {
          ShowPanHint();
        }
      }
      if old(Valid()) {
        I.ZoomKeepsInv(old(State()), widgetAccepts);
      }
    }

    method ZoomOut(widgetAccepts: bool)
      modifies this
      ensures State() == I.ZoomOut(old(State()), widgetAccepts)
      ensures old(Valid()) ==> Valid()
    {
      if currentZoom > MIN_ZOOM {
        currentZoom := Max(MIN_ZOOM, currentZoom - ZOOM_STEP);
        UpdateZoomDisplay();
        UpdateCursor();
        UpdatePageFlipState(widgetAccepts);
        ApplyTransform();
      }
      if old(Valid()) {
        I.ZoomKeepsInv(old(State()), widgetAccepts);
      }
    }

    /** Handler of `mousedown` and `touchstart` on the wrapper; `consumed` reports `preventDefault` and `stopPropagation`. */
    method StartDrag(e: InputEvent) returns (consumed: bool)
      requires currentZoom > 1.0 ==> HasPoint(e)
      modifies this
      ensures State() == I.StartDrag(old(State()), e).view
      ensures consumed == I.StartDrag(old(State()), e).consumed
      ensures old(Valid()) ==> Valid()
    {
      if currentZoom <= 1.0 {
        return false;
      }
      consumed := true;
      isDragging := true;
      dragging := true;
      var p := Locate(e);
      dragStartX := p.x;
      dragStartY := p.y;
      dragStartPanX := panX;
      dragStartPanY := panY;
    }

    /** Handler of `mousemove` and `touchmove` on the document. */
    method OnDrag(e: InputEvent) returns (consumed: bool)
      requires isDragging && currentZoom > 1.0 ==> HasPoint(e)
      modifies this
      ensures State() == I.OnDrag(old(State()), e).view
      ensures consumed == I.OnDrag(old(State()), e).consumed
      ensures old(Valid()) ==> Valid()
    {
      if !isDragging || currentZoom <= 1.0 {
        return false;
      }
      consumed := true;
      var p := Locate(e);
      var deltaX := p.x - dragStartX;
      var deltaY := p.y - dragStartY;
      var dragScale := 1.0 / currentZoom;
      panX := dragStartPanX + deltaX * dragScale;
      panY := dragStartPanY + deltaY * dragScale;
      ApplyTransform();
    }

    /** Handler of `mouseup` and `touchend` on the document. */
    method EndDrag() returns (consumed: bool)
      modifies this
      ensures State() == I.EndDrag(old(State())).view
      ensures consumed == I.EndDrag(old(State())).consumed
      ensures old(Valid()) ==> Valid()
    {
      if !isDragging {
        return false;
      }
      consumed := true;
      isDragging := false;
      dragging := false;
    }

    /** Handler of `wheel` on the wrapper; `prevented` reports `preventDefault`. */
    method OnWheel(deltaY: real, widgetAccepts: bool) returns (prevented: bool)
      modifies this
      ensures State() == I.Wheel(old(State()), deltaY, widgetAccepts).view
      ensures prevented
      ensures old(Valid()) ==> Valid()
    {
      prevented := true;
      if deltaY < 0.0 {
        ZoomIn(widgetAccepts);
      } else {
        ZoomOut(widgetAccepts);
      }
    }

    /**
     * The capture-phase `click` and `mousedown` listeners on the book: whether
     * the event is swallowed. In a valid state that is exactly when the wrapper
     * is `draggable`, and page turning is then also off in the widget or by
     * `pointer-events: none`.
     */
    method CaptureBookPress() returns (swallowed: bool)
      ensures swallowed == I.BlocksBookPress(State())
      ensures Valid() ==> swallowed == draggable
      ensures Valid() && swallowed && hasPageFlip ==> !useMouseEvents || pointerEvents == I.PointerNone
    {
      swallowed := currentZoom > 1.0;
      if Valid() && hasPageFlip {
        I.PressBlockingMatchesWidget(State());
      }
    }

    /** The `contextmenu` listener on the book: whether the menu is suppressed. */
    method OnContextMenu() returns (prevented: bool)
      ensures prevented == I.BlocksContextMenu(State())
      ensures Valid() ==> prevented == draggable
    {
      prevented := currentZoom > 1.0;
    }
  }
}
