# Zoom, pan and drag in a PDF page-flip viewer

The viewer renders a PDF into pages of a page-flip widget. On top of it sits
a small interaction layer in `index.js`:

- zoom buttons and the mouse wheel step the zoom factor by 0.25 within [0.5, 2.5];
- a label shows the zoom as a percentage;
- above zoom 1 the book can be dragged to pan;
- the widget's own mouse handling is switched off while zoomed, with a
  `pointer-events` fallback when the widget refuses;
- capture-phase listeners swallow clicks and presses on the book while zoomed.

This project models that layer and proves its invariants.

- `Zoom` (zoom.dfy): the constants, `Math.min`/`Math.max`/`Math.round`, and the grid of quarter steps.
- `Pointer` (pointer.dfy): how a mouse or touch event yields a screen position.
- `Interaction` (interaction.dfy): one function per handler on a value
  `View`. The value holds the module-level variables (`currentZoom`, pan,
  drag session) and the DOM state the handlers write. These are the wrapper's
  `draggable` and `dragging` classes, the label, the widget's
  `useMouseEvents` option, the book's `pointer-events` and `transform`
  styles, and a count of pan-hint showings. The module also holds the
  invariant `Inv` and the lemmas about single handlers.
- `Viewer` (viewer.dfy): class `BookViewer`, the same state as fields that
  the handlers reassign in place. Each method is proved to produce the state
  the matching `Interaction` function gives. The handlers `ZoomIn`, `ZoomOut`,
  `StartDrag`, `OnDrag`, `EndDrag` and `OnWheel` are also proved to keep
  `Inv`; the helpers they call (`UpdateZoomDisplay`, `ApplyTransform`,
  `UpdateCursor`, `UpdatePageFlipState`, `ShowPanHint`) break it halfway
  through a handler and make no such promise.
- `Session` (session.dfy): arbitrary sequences of events as the browser
  dispatches them, and the proof that every reachable state keeps `Inv`. A
  mouse press over the book above zoom 1 is swallowed by the book's
  capture-phase `mousedown` listener and never reaches `startDrag` on the
  wrapper, unless the book has `pointer-events: none`.
- `Layout` (layout.dfy): `computeBookSize`, the book box fitted to the window.
- `Wrappers` (wrappers.dfy): `Option`, standing for `undefined`.

Zoom factors are `real`. The grid is the set of factors in [0.5, 2.5] whose
quadruple is an integer; every constant involved is an exact binary
fraction. Pans and coordinates are `real`, so `1 / currentZoom` is exact.
Whether the widget's `updateOptions` call returns normally or throws is a
boolean parameter `widgetAccepts` of each zoom operation.

Where the code and its design description differ, the model follows the code:

- `zoomIn` shows the pan hint after every effective zoom-in that ends above 1,
  not only on the crossing above 1. Three zoom-ins from 1 show it three times
  (`Session.ThreeZoomIns`).
- `endDrag` without an open session does nothing; there is no defensive reset.
- If the zoom drops to 1 or below during a drag, the session stays open, but
  moves do nothing because of the zoom guard in `onDrag`.

Two consequences of the fallback design, when the widget throws on some
`updateOptions` calls and accepts others:

- Throw, then accept (`Interaction.StaleFallbackAfterMixedOutcomes`): the
  book's `pointer-events: none` is never undone. Back at zoom 1, the widget
  handles the mouse but the book ignores it.
- Accept, then throw (`Interaction.StaleMouseOptionAfterMixedOutcomes`): the
  widget's `useMouseEvents` stays false. Back at zoom 1, the book has
  `pointer-events: auto` and lets presses through, but the widget does not
  turn pages.

So the invariant guarantees only one direction: above zoom 1 page turning is
off. At or below zoom 1 it says that the last request asked for page turning
to be on, not that it works.

A consequence of the press blocker (`Session.AcceptingWidgetBlocksMouseDragOnBook`):
with a widget that never throws, the fallback style is never set, so above
zoom 1 every mouse press on the book is swallowed before it reaches
`startDrag`. A mouse drag-to-pan then starts only from the part of the
wrapper outside the book; touch drags are unaffected.

## Model

| member | source | states |
|---|---|---|
| Zoom.Min | index.js:88 | `Math.min`: the result is one of the two arguments and no larger than either |
| Zoom.Max | index.js:101 | `Math.max`: the result is one of the two arguments and no smaller than either |
| Zoom.Round | index.js:24 | `Math.round` gives the integer within half a unit, halves going up |
| Zoom.GridPointIsQuarter | index.js:7-12 | every grid zoom is q/4 for a q in 2..10 |
| Zoom.QuarterIsGridPoint | index.js:10-12 | every q/4 for q in 2..10 is a grid zoom with q quarters |
| Zoom.PercentOnGrid | index.js:21-26 | on the grid the label shows 25 percent per quarter, between 50 and 250 |
| Zoom.StepUpExact | index.js:86-88 | below 2.5 the clamped step is a full +0.25 and stays on the grid |
| Zoom.StepDownExact | index.js:99-101 | above 0.5 the clamped step is a full -0.25 and stays on the grid |
| Pointer.LocateAgreesWithSource | index.js:121-123 | wherever the source's coordinate pick yields a number, it is the position the model uses |
| Pointer.SourceLosesOnlyZero | index.js:137-139 | the source's pick yields `undefined` exactly for a mouse event at coordinate 0 |
| Pointer.LeftEdgeMouseLosesX | index.js:138 | a mouse move at clientX 0 loses its x coordinate in the source's pick |
| Interaction.InitialInv | index.js:7-19 | the state after loading (zoom 1, no pan, no drag, label 100%) satisfies the invariant |
| Interaction.ZoomAtBoundIsNoOp | index.js:86-107 | `zoomIn` at 2.5 and `zoomOut` at 0.5 change nothing: no display, cursor, widget, transform or hint update (the guards as a decision rule) |
| Interaction.ZoomInStep | index.js:86-97 | an effective `zoomIn` adds exactly 0.25 and 25 label points, and shows the hint once exactly when the new zoom is above 1 |
| Interaction.ZoomOutStep | index.js:99-107 | an effective `zoomOut` subtracts exactly 0.25 and 25 label points and shows no hint |
| Interaction.RefreshPan | index.js:35-47 | after a zoom change, at zoom 1 or below the pan is 0 whatever it was and `draggable` is off; above 1 the pan is kept and `draggable` is on; the transform shows the new state |
| Interaction.RefreshPageFlip | index.js:49-74 | after a zoom change: no widget, no change; widget accepts, `useMouseEvents` equals zoom at most 1; widget throws, `pointer-events` is "none" above 1 and "auto" otherwise |
| Interaction.ZoomKeepsInv | index.js:86-107 | zooming in or out keeps the invariant: grid, label, pan reset, classes, transform, page-turn gating |
| Interaction.DragGating | index.js:109-164 | a press at zoom at most 1, a move outside a session or at zoom at most 1, and a release outside a session change nothing and suppress nothing (the guards as a decision rule) |
| Interaction.EndDragCloses | index.js:153-164 | a release in a session closes it, drops the `dragging` class and leaves zoom, pan and transform unchanged |
| Interaction.DragPan | index.js:109-151 | after a press at zoom z above 1 and a move, the pan is the pan at the press plus the pointer's travel divided by z |
| Interaction.MovesFromStart | index.js:141-148 | moves are measured from the press: a move after a move equals the later move alone |
| Interaction.DragAtZoomTwo | index.js:141-148 | at zoom 2 a drag of (100, 0) from pan (0, 0) pans to (50, 0) |
| Interaction.DragKeepsInv | index.js:109-151 | pressing and moving keep the invariant |
| Interaction.EndDragKeepsInv | index.js:153-164 | releasing keeps the invariant |
| Interaction.WheelRule | index.js:294-301 | the wheel always suppresses scrolling; a negative `deltaY` zooms in, zero or positive zooms out (the handler as a decision rule) |
| Interaction.WheelDownAtMinimum | index.js:294-301 | a wheel-down at zoom 0.5 suppresses scrolling and leaves the state unchanged |
| Interaction.PressBlockingMatchesWidget | index.js:267-291 | in a reachable state, clicks and presses on the book are swallowed exactly while `draggable` (zoom above 1), and whenever they are swallowed page turning is also off in the widget or by `pointer-events: none`; the converse is not promised |
| Interaction.StaleFallbackAfterMixedOutcomes | index.js:49-74 | a throwing call followed by an accepting one leaves `pointer-events: none` at zoom 1 |
| Interaction.StaleMouseOptionAfterMixedOutcomes | index.js:49-74 | an accepting call followed by a throwing one leaves the widget's mouse handling off at zoom 1 while presses get through |
| Viewer.BookViewer.constructor | index.js:6-19 | the fields start in the loaded state, which satisfies the invariant |
| Viewer.BookViewer.UpdateZoomDisplay | index.js:21-26 | the label is set to the rounded percentage; nothing else changes |
| Viewer.BookViewer.ApplyTransform | index.js:28-33 | the transform is set to the current zoom and pan; nothing else changes |
| Viewer.BookViewer.UpdateCursor | index.js:35-47 | `draggable` set above 1; cleared with the pan reset at or below 1 |
| Viewer.BookViewer.UpdatePageFlipState | index.js:49-74 | the widget option or the fallback style is set as `Interaction.UpdatePageFlipState` says |
| Viewer.BookViewer.ShowPanHint | index.js:76-84 | the hint count grows by one exactly above zoom 1 |
| Viewer.BookViewer.ZoomIn | index.js:86-97 | the fields become `Interaction.ZoomIn` of the old state, and the invariant is kept |
| Viewer.BookViewer.ZoomOut | index.js:99-107 | the fields become `Interaction.ZoomOut` of the old state, and the invariant is kept |
| Viewer.BookViewer.StartDrag | index.js:109-129 | the fields and the suppression flag are those of `Interaction.StartDrag`; the invariant is kept |
| Viewer.BookViewer.OnDrag | index.js:131-151 | the fields and the suppression flag are those of `Interaction.OnDrag`; the invariant is kept |
| Viewer.BookViewer.EndDrag | index.js:153-164 | the fields and the suppression flag are those of `Interaction.EndDrag`; the invariant is kept |
| Viewer.BookViewer.OnWheel | index.js:294-301 | scrolling is always suppressed and the fields become those of `Interaction.Wheel` |
| Viewer.BookViewer.CaptureBookPress | index.js:267-291 | a click or press is swallowed exactly above zoom 1, that is exactly while `draggable`, and page turning is then off in the widget or by style |
| Viewer.BookViewer.OnContextMenu | index.js:303-308 | the context menu is suppressed exactly above zoom 1, that is exactly while `draggable` |
| Layout.AvailableHeight | index.js:206-215 | the usable height is the window less header and 32, and at least 200 |
| Layout.AvailableWidth | index.js:216 | the usable width is the window less 32, and at least 200 |
| Layout.FitBox | index.js:218-224 | before rounding, the width is at most 1000 and at most 90% of the usable width, the height at most the usable height, and width over height is the page ratio in both branches |
| Layout.ComputeBookSize | index.js:202-227 | the returned size is the fitted box rounded down, so within one pixel below it, at most 1000 wide and no taller than the usable height |
| Layout.FitBoxIsLargest | index.js:218-224 | the fitted box is the largest box of the page ratio within both limits, and reaches one of them |
| Session.StepKeepsInv | index.js:248-301 | any single user event keeps the invariant and moves the zoom by 0 or exactly one step |
| Session.RunKeepsInv | index.js:248-301 | any sequence of user events keeps the invariant |
| Session.Reachable | index.js:7-12 | every reachable zoom is in [0.5, 2.5] on the quarter grid, the label shows 25 per quarter, and there is no pan at zoom 1 or below |
| Session.ThreeZoomIns | index.js:86-97 | three zoom-ins from 1 reach 1.75 and 175%, and show the hint three times |
| Session.MousePressOnBookSwallowed | index.js:280-291 | above zoom 1 and without `pointer-events: none`, a mouse press on the book changes nothing: it never reaches `startDrag` |
| Session.NoFallbackStyle | index.js:49-74 | without a throwing `updateOptions` call, the book's `pointer-events` style is never set |
| Session.AcceptingWidgetBlocksMouseDragOnBook | index.js:253-291 | with a widget that never throws, after any events a mouse press on the book above zoom 1 opens no drag session |

## Findings

| source | as written | input that shows it | evidently intended | confidence | as-written member | corrected member |
|---|---|---|---|---|---|---|
| index.js:122-123, index.js:138-139 | `e.clientX \|\| (e.touches && e.touches[0].clientX)` treats a coordinate of 0 as missing; a mouse event has no `touches`, so the pick is `undefined` | a `mousemove` during a drag with `clientX` 0 (pointer on the window's left edge): the delta is `NaN`, so `panX` becomes `NaN` | take the mouse's own `clientX`/`clientY` whenever the event is a mouse event | not executed; high that the pick loses 0, medium on how visible the glitch is | Pointer.SourceClientX (shown by Pointer.LeftEdgeMouseLosesX) | Pointer.Locate (proved by Pointer.LocateAgreesWithSource and used by every drag handler) |

## Left out

- Loading and rasterising the PDF (index.js:166-200): asynchronous, and done by a foreign library.
- Constructing the page-flip widget (index.js:232-245): foreign code. Its existence is a constructor parameter. The success or failure of its `updateOptions` call is the `widgetAccepts` parameter.
- DOM lookups: every element (`book`, `book-wrapper`, `pan-hint`, `zoom-level`) is assumed present, so each `if (element)` guard takes its true branch.
- Listener registration (index.js:248-308): the registered handlers are the members of `BookViewer`. The events they receive are the constructors of `Session.Event`.
- The page's HTML is not part of this model. `Session.Step` assumes that the book element lies inside the wrapper, so that the book's capture-phase `mousedown` listener runs before the wrapper's `startDrag` and can stop it; `Interaction.PressReachesWrapper` states that dispatch rule. Event targets other than "over the book" and "on the wrapper outside the book" are not modelled.
- The 4-second auto-hide of the pan hint (index.js:81): timing. Only the number of times it is shown is kept.
- The label text: the model keeps the integer percentage, not the string with its "%" sign.
- The transform string: kept as a `Transform(scale, translateX, translateY)` value.
- The load-error path (index.js:309-314): console output and a message.
- `stopImmediatePropagation` in the capture listeners: it is not told apart from `preventDefault`; both are the one boolean result.
- IEEE floating point: zoom, pan and coordinates are exact reals. The window size and header height are integer parameters, not reads of `window.innerHeight`, `window.innerWidth` and `parseInt` of `--header-height`. A header height that parses to `NaN` is not modelled.
- The canvas-derived page ratio is a positive real parameter.
- Viewer.BookViewer.StartDrag: a touch event with an empty touch list is excluded by a precondition; the source throws there after opening the session.
- Viewer.BookViewer.OnDrag: a touch event with an empty touch list is excluded by a precondition; the source throws there.
- The `NaN` pan the source computes from an `undefined` coordinate is not modelled. The drag handlers use the corrected pick, see Findings.
