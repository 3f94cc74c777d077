# useDragDrop: a Dafny model of the drag-and-drop hook

This project models the logic of a small React drag-and-drop hook: the drag
engine of `src/hooks/useDragDrop.tsx` and the rectangle geometry of
`src/util/calculateElementsOverlap.ts`.

The engine keeps four state cells: `isDragging`, `isTouching`, `translate`
and `isDraggableOverllapping` (the spelling is the source's). Three handlers
change them:

- `handleMouseDown` starts a drag and records whether it is a touch.
- `handleMouseMove` works only during a drag. Through `handleDrag` it moves
  the draggable, by the mouse delta or by snapping its centre to the first
  touch, and recomputes the overlap with the drop zone.
- `handleMouseUp` ends the drag.

`setTranslate` overrides the translation from outside. The user callbacks
`onDragStart`, `onDrag`, `onDragEnd` and `onDrop` are recorded as tags
appended to a ghost log. This lets their order be stated.

Files:

- `wrappers.dfy`: `Option`.
- `geometry.dfy`: the overlap test and the intersection ratio, as pure
  functions. Both are modelled exactly as written, with lemmas on what they do
  and do not guarantee.
- `callback_log.dfy`: an automaton (`Scan`) for the callback logs the engine
  produces, and `ScanSound`, which restates acceptance as facts about
  positions in the log.
- `drag_drop.dfy`: the event and state datatypes, and the pure transitions
  (`Started`, `Dragged`, `Moved`, `Ended`, `Step`). It also holds the class
  `Engine`, with one method per handler, each proved against the pure
  transition and keeping the log consistent with `isDragging`.
- `drag_drop_traces.dfy`: runs over sequences of actions. Lemmas cover
  callback order, accumulation of mouse deltas, and when the translation and
  the overlap flag may change.
- `listeners.dfy`: the six event names and the handler each reaches.

The host's layout queries are parameters of a move. The draggable's
`getBoundingClientRect()` is `Option<Rect>`, `None` while its ref is unset.
The drop zone's rectangle is `Option<Rect>`, `None` when there is no drop-zone
ref or it is unset. Both are read when the move arrives. The classifier
`isMouseEvent`/`isTouchEvent` is the constructor of `InputEvent`. Coordinates
are `real`.

Two behaviours of the geometry file are modelled exactly as written. Each is
proved as a lemma:

- The comments of `getIntersectionRatio` describe the intersecting area of
  two rectangles (`src/util/calculateElementsOverlap.ts:15`). They also say
  the result is 0 when the rectangles do not overlap (line 35). The code
  builds its "intersection" from `target` alone, so two disjoint rectangles
  of the same size give 1 (`IntersectionRatioOfDisjoint`).
- An overlap test is normally expected to be symmetric. This one compares
  `el1.right < el1.left`, so it is not commutative (`NotCommutative`). Its
  only false positives are an `el1` lying wholly to the left of `el2`
  (`FalsePositivesAreLeftOfSecond`).

## Model

| member | source | states |
|---|---|---|
| `Geometry.Overlap` | src/util/calculateElementsOverlap.ts:2-10 | the default export as written; a reported overlap needs `el1.left <= el1.right` and is a real intersection unless `el1` lies wholly to the left of `el2` |
| `Geometry.SeparatedNeverOverlaps` | src/util/calculateElementsOverlap.ts:6-8 | any of `el1.left > el2.right`, `el1.bottom < el2.top`, `el1.top > el2.bottom` makes the result false |
| `Geometry.InvertedFirstNeverOverlaps` | src/util/calculateElementsOverlap.ts:5 | an `el1` with `right < left` never overlaps anything, whatever `el2` is |
| `Geometry.OverlapWhenOrdered` | src/util/calculateElementsOverlap.ts:4-9 | for `el1.left <= el1.right` the result is exactly the negation of the three comparisons against `el2`; `el1.right` is never compared with `el2.left` |
| `Geometry.OverlapIgnoresSecondLeft` | src/util/calculateElementsOverlap.ts:4-9 | the result does not depend on `el2.left` at all |
| `Geometry.NoFalseNegatives` | src/util/calculateElementsOverlap.ts:4-9 | an `el1` with `left <= right` that meets `el2` as closed intervals on both axes is reported as overlapping; shared edges count |
| `Geometry.FalsePositivesAreLeftOfSecond` | src/util/calculateElementsOverlap.ts:4-9 | for a well-formed `el1`, a reported overlap is a real intersection unless `el1.right < el2.left`, and those are the only false positives |
| `Geometry.NotCommutative` | src/util/calculateElementsOverlap.ts:5-6 | `[0,1]x[0,1]` against `[5,6]x[0,1]` gives true one way and false the other, and the two squares do not intersect |
| `Geometry.IntersectionRatio` | src/util/calculateElementsOverlap.ts:17-37 | 0 whenever `target.width <= 0` or `target.height <= 0`; +Infinity exactly when the target has positive extent and `entry` has zero area |
| `Geometry.IntersectionRatioIgnoresEntryPosition` | src/util/calculateElementsOverlap.ts:17-33 | moving `entry` (its top, left, right, bottom) never changes the result |
| `Geometry.IntersectionRatioIsAreaQuotient` | src/util/calculateElementsOverlap.ts:25-30 | with positive target extent and nonzero entry area the ratio is target area over entry area |
| `Geometry.IntersectionRatioOfSameSize` | src/util/calculateElementsOverlap.ts:25-30 | rectangles of the same positive width and height give exactly 1 |
| `Geometry.IntersectionRatioOfDisjoint` | src/util/calculateElementsOverlap.ts:18-30 | two disjoint unit squares give 1, not 0 |
| `CallbackLog.ScanSound` | src/hooks/useDragDrop.tsx:68-93 | an accepted log has every `Drop` right after a `DragEnd`, every `DragEnd` followed by `Drop` unless last, every `Drag` inside an open session, and phase `Open` exactly when a session is open |
| `DragDrop.SnapToTouch` | src/hooks/useDragDrop.tsx:48-56 | the change the touch branch makes to the translation carries the draggable's centre onto the touch point, on both axes |
| `DragDrop.Dragged` | src/hooks/useDragDrop.tsx:31-62 | `handleDrag` never changes `isDragging` or `isTouching`; with no draggable or no touches it changes nothing; with no drop zone it keeps the overlap flag |
| `DragDrop.Started` | src/hooks/useDragDrop.tsx:64-74 | `handleMouseDown` on values: dragging, touching exactly when the event is a touch, translate and overlap kept |
| `DragDrop.Ended` | src/hooks/useDragDrop.tsx:76-83 | `handleMouseUp` on values: neither dragging nor touching, translate and overlap kept |
| `DragDrop.Moved` | src/hooks/useDragDrop.tsx:85-93 | a move outside a drag changes nothing; no move changes `isDragging` or `isTouching` |
| `DragDrop.Step` | src/hooks/useDragDrop.tsx:64-93 | a start leaves the engine dragging, an end leaves it not dragging, a move or `setTranslate` keeps the dragging flag |
| `DragDrop.StepKeepsConsistent` | src/hooks/useDragDrop.tsx:68-93 | every handler keeps the log accepted, with no `onDragEnd` left waiting, and keeps `isDragging` true exactly when the log leaves a session open |
| `DragDrop.Engine.constructor` | src/hooks/useDragDrop.tsx:25-28 | a fresh engine is not dragging, not touching, at translation (0,0), not overlapping, with an empty log |
| `DragDrop.Engine.SetTranslate` | src/hooks/useDragDrop.tsx:126 | replaces `translate` whatever the dragging state; nothing else changes and no callback runs |
| `DragDrop.Engine.HandleMouseDown` | src/hooks/useDragDrop.tsx:64-74 | unconditionally sets `isDragging`, sets `isTouching` to whether the event is a touch, appends exactly one `DragStart`, keeps translate and overlap |
| `DragDrop.Engine.HandleMouseUp` | src/hooks/useDragDrop.tsx:76-83 | unconditionally clears `isDragging` and `isTouching`, appends `DragEnd` then `Drop`, keeps translate and overlap |
| `DragDrop.Engine.HandleDrag` | src/hooks/useDragDrop.tsx:31-62 | no draggable or zero touches: nothing changes; a mouse event adds `(movementX, movementY)`; a touch snaps to `targetTouches[0]`; the overlap becomes `Overlap(rect read before the move, drop zone)` only when a drop zone exists; the flags and the log never change |
| `DragDrop.Engine.HandleMouseMove` | src/hooks/useDragDrop.tsx:85-93 | outside a drag nothing changes and nothing is logged; during a drag `handleDrag` runs and exactly one `Drag` is appended, even when `handleDrag` returned early; the flags never change |
| `DragDropTraces.RunKeepsConsistent` | src/hooks/useDragDrop.tsx:64-93 | any run of actions keeps the log consistent with the dragging flag |
| `DragDropTraces.CallbackOrder` | src/hooks/useDragDrop.tsx:68-93 | from a fresh engine, every run invokes `onDrop` only right after `onDragEnd`, `onDragEnd` only right before `onDrop`, `onDrag` only inside an open session; the engine is dragging exactly when a session is open |
| `DragDropTraces.MouseMovesAccumulate` | src/hooks/useDragDrop.tsx:40-44 | mouse moves during a drag leave the translation at the prior one plus the sum of the deltas, keep the drag going and invoke `onDrag` once per move |
| `DragDropTraces.OverlapKeptWithoutDropZone` | src/hooks/useDragDrop.tsx:59-61 | along a run whose moves have no drop zone the overlap flag never changes |
| `DragDropTraces.OverlapFalseWithoutDropZone` | src/hooks/useDragDrop.tsx:28-61 | without a drop zone, the overlap flag of a fresh engine stays false |
| `DragDropTraces.TranslateChangesOnlyWhileDragging` | src/hooks/useDragDrop.tsx:85-93 | a step changes the translation only during a drag or through `setTranslate` |
| `DragDropTraces.OverlapChangesOnlyOnDrag` | src/hooks/useDragDrop.tsx:59-61 | the overlap flag changes only on a move during a drag with both rectangles present, and then to their overlap test |
| `DragDropTraces.ThreeMouseMoves` | src/hooks/useDragDrop.tsx:40-44 | a start and moves of (3,0), (0,4), (-1,-1) from the origin end at (2,3) |
| `DragDropTraces.TouchIsNotADelta` | src/hooks/useDragDrop.tsx:40-56 | the same numbers as a mouse delta and as a touch point give different translations |
| `Listeners.Lookup` | src/hooks/useDragDrop.tsx:99-105 | an event name reaches no handler exactly when no binding has that name, otherwise a handler bound to that name |
| `Listeners.HandlerFor` | src/hooks/useDragDrop.tsx:99-105 | an event on the draggable reaches a handler exactly when its name is one of the six bound names |
| `Listeners.HandlerTable` | src/hooks/useDragDrop.tsx:99-105 | `mousedown`/`touchstart` reach the start handler, `mouseup`/`touchend` the end handler, `mousemove`/`touchmove` the move handler, and no other name reaches any |
| `Listeners.TeardownIsSymmetric` | src/hooks/useDragDrop.tsx:99-114 | no event name is bound twice, and the cleanup removes exactly the bindings that were added |

## Left out

- React's `useState`, `useCallback`, dependency arrays and render batching are not modelled. Each event sees the state left by the one before. The stale closure over `translate` in `handleDrag` is not modelled.
- `useEffect` attach/detach is reduced to the name-to-handler tables. The `{ passive: false }` option of `touchmove` is not modelled.
- `preventDefault`, `stopPropagation` and the `console.warn` for a missing draggable are host side effects and are dropped. `getBoundingClientRect` becomes the `Option<Rect>` parameters.
- The callbacks receive the raw event in the source. The log keeps only which callback ran. What a callback does is not modelled; that includes a callback that throws, or one that calls `setTranslate`.
- `DragDrop.Engine.HandleMouseMove`: requires that a touch event with touches also has target touches, whenever the draggable is present during a drag. The source reads `targetTouches[0]` there and would throw on that input.
- `Geometry.IntersectionRatio`: the result is over reals before `Number(x.toFixed(4))`. The four-decimal rounding and floating-point error are not modelled. A zero denominator gives `PositiveInfinity`; NaN cannot arise over reals.
- `isMouseEvent` and `isTouchEvent` (`src/event`) are not part of this model. The event constructor classifies the event.
- `src/App.tsx` and `src/components/Draggable/Draggable.tsx` are rendering and demo wiring. That includes the demo's reset-to-origin on an unsuccessful drop.
