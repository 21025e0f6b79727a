# Highlighter pen overlay — a verified model

`pencheck.js` puts a transparent canvas over the `.terms-section` elements of a
terms-and-conditions page. The reader can "highlight" the text with a yellow pen.
Each stroke fades out over time. The canvas lets go of the input over the
agreement checkboxes and during two-finger gestures, so the page can still be
clicked, scrolled and zoomed.

This project models the logic under the DOM and canvas calls:

- **Layout** (`resizeCanvas`): the canvas takes the bounding box of all sections.
  Vertical values are page coordinates (client value plus `scrollY`). Horizontal
  values are client coordinates.
- **Coordinate translation and hit tests** (`getPoint`, `isOverCheckbox`, the
  section loop of `startDrawing`).
- **Input routing**: the decision `startDrawing` takes. A multi-touch is ignored.
  A press outside every section or over a checkbox turns pointer events off.
  Any other press starts a stroke.
- **Stroke collection and fade**: `draw` appends points, `animate` runs one tick,
  and `drawLines` selects which strokes it paints.

The mutable state lives in one class, `Pen.Overlay`. Its fields are `lines`,
`isDrawing`, `lastPoint`, `touchCount`, the pointer-events flag, and the canvas
`left`/`top`/`width`/`height`. The page geometry, `scrollY` and the clock `now`
are passed to its methods as parameters. Strokes are values (`Strokes.Line`):
nothing outside the collection refers to them.

Modules, all modelling `pencheck.js`:

- `Geometry` (geometry.dfy): rectangles, events, `getPoint`, the inclusive hit tests.
- `CanvasLayout` (layout.dfy): the bounding box of `resizeCanvas`.
- `Strokes` (strokes.dfy): the fade, one tick, the paint selection, the `draw` update.
- `Routing` (routing.dfy): the capture decision of `startDrawing`.
- `Pen` (pen.dfy): the `Overlay` class and its handlers.

Behaviours of the code that a reader might not expect, all kept in the model:

- `startDrawing` pushes a stroke holding the start point and then calls `draw`
  with the same event. A new stroke therefore holds the start point twice, not once
  (`Strokes.StartThenDraw`, `Pen.FirstStrokeScenario`).
- `getPoint` adds `scrollY` to the vertical coordinate for mouse events as well
  as touch events. No horizontal scroll is added for either kind.
- The maxima in `resizeCanvas` start at 0, not at minus infinity
  (`CanvasLayout.MaximaStartAtZero`).
- The fade does not last the 3000 ms that `fadeOutDuration` names. Line 158 subtracts
  elapsed/3000 from 0.7, so a stroke is gone after 2100 ms. Every tick in the model
  applies that formula (`Strokes.FadeAsWritten`); see Findings.

Two consequences proved along the way:

- Every stroke in the collection has at least two points (`Pen.Overlay.Valid`).
  So the "fewer than two points" skip in `drawLines` never fires in a reachable
  state, and `animate` paints every stroke it keeps (`Strokes.PaintedAll`).
- A hit test gives the same answer in the canvas frame as in the client frame.
  The capture decision therefore does not depend on the canvas offset or the
  scroll (`Routing.RouteInClientFrame`).

## Model

| member | source | states |
|---|---|---|
| `Geometry.GetPoint` | pencheck.js:54-65 | the canvas point maps back to the event's client position (the mouse, or the first touch), and it is the only point that does; scrollY is added for touch and mouse alike |
| `Geometry.ContainsInClientFrame` | pencheck.js:92-95 | the inclusive section/checkbox test on a translated point equals inclusive containment of the client position in the client rectangle |
| `Geometry.AnyContainsInClientFrame` | pencheck.js:88-98 | the same agreement for a whole list of rectangles |
| `Geometry.IsOverCheckbox` | pencheck.js:67-78 | true exactly when some checkbox rectangle contains the point (inclusive bounds) |
| `Geometry.InsideTerms` | pencheck.js:86-98 | the flag loop over the sections ends true exactly when some section contains the point |
| `CanvasLayout.MinOfIsMinimum` | pencheck.js:20-33 | the running minimum of the tops / lefts is below every one of them and equal to one of them |
| `CanvasLayout.MaxFromZeroIsMaximum` | pencheck.js:20-33 | the running maximum started at 0 is at least 0 and every element, and equals 0 or one of them |
| `CanvasLayout.Layout` | pencheck.js:20-38 | the box resizeCanvas sets: left and top at or before every section's left and page-coordinate top; right (left + width) and bottom (top + height) never before 0, since the maxima start at 0 |
| `CanvasLayout.LayoutCovers` | pencheck.js:20-38 | the canvas box covers every section (page coordinates vertically); its left and top touch a section; its right and bottom touch a section or sit at 0 |
| `CanvasLayout.LayoutNonNegative` | pencheck.js:35-38 | with rectangles of non-negative size the canvas width and height are non-negative |
| `CanvasLayout.SingleSectionLayout` | pencheck.js:16-38 | one section (top 100, left 0, bottom 300, right 500) with no scroll gives a canvas at (0, 100) sized 500 by 200 |
| `CanvasLayout.MaximaStartAtZero` | pencheck.js:21-23 | because the maxima start at 0, a section left of and above the origin stretches the canvas to the origin |
| `Strokes.FadeAsWritten` | pencheck.js:158 | the written opacity max(0, 0.7 - elapsed/3000), the one every tick applies, is non-negative, positive exactly before 2100 ms, at most 0.7 exactly from 0 ms on, and 0.7 at 0 ms |
| `Strokes.FadeAsWrittenEndsEarly` | pencheck.js:13-158 | the written formula reaches 0 at 2100 ms and gives 0.2 at 1500 ms, where the intended fade gives a positive value and 0.35 |
| `Strokes.Fade` | pencheck.js:13 | the corrected half of the Findings row: the intended opacity 0.7 * (1 - elapsed/fadeOutDuration) is non-negative, positive exactly before 3000 ms, at most 0.7 exactly from 0 ms on, and 0.7 at 0 ms |
| `Strokes.FadeMonotone` | pencheck.js:13 | the intended opacity never grows with elapsed time, and strictly shrinks while still positive |
| `Strokes.FadeAsWrittenMonotone` | pencheck.js:158 | the written opacity never grows with elapsed time, and strictly shrinks while still positive |
| `Strokes.Tick` | pencheck.js:156-160 | the filter, built stroke by stroke from `Step` (the stroke `Aged` with line 158's opacity when it `Survives`, i.e. that opacity is positive, else nothing), never yields more strokes than it is given |
| `Strokes.TickSurvivors` | pencheck.js:156-160 | one tick keeps no more strokes than it had; every survivor has opacity > 0 equal to line 158's max(0, 0.7 - elapsed/3000); every stroke whose written opacity is positive, i.e. that started less than 2100 ms before now, survives with its new opacity; every survivor is such a stroke |
| `Strokes.AgeAndPrune` | pencheck.js:156-160 | the filter loop that sets each stroke's opacity and keeps the visible ones computes exactly one tick |
| `Strokes.TickAppend` | pencheck.js:156-160 | the tick is order-preserving: ticking a concatenation ticks each part in place |
| `Strokes.TickBounds` | pencheck.js:156-160 | if no stroke started after now, every survivor's opacity lies in (0, 0.7] |
| `Strokes.TickKeepsStrokes` | pencheck.js:156-160 | if every stroke has two points or more, so does every survivor of a tick, and every survivor has positive opacity |
| `Strokes.StepTwice` | pencheck.js:156-160 | ticking a single stroke at t1 and then at t2 >= t1 equals ticking it once at t2 |
| `Strokes.TickTwice` | pencheck.js:154-160 | two ticks at t1 <= t2 equal one tick at t2; a second tick at the same time changes nothing |
| `Strokes.StrokeFadeScenario` | pencheck.js:154-160 | with line 158's formula, a stroke started at t0 has opacity 0.2 at t0 + 1500 and is gone at t0 + 2100 |
| `Strokes.Painted` | pencheck.js:132-133 | the strokes the repaint draws, in order: no more than there are, each with at least two points |
| `Strokes.PaintedSelects` | pencheck.js:132-133 | the painted strokes are exactly the strokes with at least two points, no more of them than there are strokes |
| `Strokes.PaintedAll` | pencheck.js:132-133 | when every stroke has two points or more, all strokes are painted, in order |
| `Strokes.AppendToLast` | pencheck.js:120-123 | the draw update keeps the length, leaves every stroke but the last unchanged, and appends the point to the last stroke's points without touching its opacity or start time |
| `Strokes.StartThenDraw` | pencheck.js:110-111 | pushing a one-point stroke and then drawing the same point leaves a stroke holding the point twice, with opacity 0.7 and the start time |
| `Routing.Route` | pencheck.js:80-105 | a multi-touch exactly for a touch event with more than one touch; a capture only at the event's canvas point, when it lies in some section and in no checkbox; a pass-through only when that point lies in no section or on a checkbox |
| `Routing.RouteInClientFrame` | pencheck.js:80-105 | a start is a multi-touch exactly when it is a touch with more than one touch; it is captured exactly when it is not one, its client position is in some section and in no checkbox (checkboxes win); a captured point maps back to the event position |
| `Routing.CaptureLiesOnCanvas` | pencheck.js:86-105 | with the canvas laid out over the sections at the current scroll, a captured point lies within 0..width and 0..height |
| `Pen.Overlay.constructor` | pencheck.js:3-52 | on page load: no strokes, not drawing, no last point, no touches, pointer events on; the canvas keeps its static position and 300 by 150 size without sections, otherwise takes the layout |
| `Pen.Overlay.ResizeCanvas` | pencheck.js:16-45 | with no sections the canvas is unchanged; otherwise it equals the layout of the sections at this scroll, whatever it was before; nothing else changes |
| `Pen.Overlay.StartDrawing` | pencheck.js:80-112 | multi-touch: nothing changes; pass-through: pointer events off, strokes, drawing flag and last point unchanged; capture: pointer events on, drawing, last point p, and exactly one stroke [p, p] with opacity 0.7 and start time now appended |
| `Pen.Overlay.Draw` | pencheck.js:114-127 | when not drawing nothing changes; when drawing, the event's point is appended to the last stroke only and becomes the last point; the invariant is kept |
| `Pen.Overlay.DrawLines` | pencheck.js:129-148 | the loop selects exactly the strokes with two points or more, in order |
| `Pen.Overlay.StopDrawing` | pencheck.js:150-152 | drawing stops; nothing else changes |
| `Pen.Overlay.Prune` | pencheck.js:156-160 | the strokes become one tick of the old strokes, the invariant is kept, opacities stay within (0, 0.7] if no stroke started after now; nothing else changes |
| `Pen.Overlay.Animate` | pencheck.js:154-163 | the strokes become one tick of the old strokes; everything kept is painted; opacities stay within (0, 0.7] if no stroke started after now; nothing else changes |
| `Pen.Overlay.TouchStart` | pencheck.js:166-173 | the touch count becomes the number of touches; two or more turn pointer events off and leave strokes, drawing flag, last point and canvas alone; one touch acts as startDrawing |
| `Pen.Overlay.TouchMove` | pencheck.js:175-178 | with more than one touch down nothing changes; otherwise it acts as draw |
| `Pen.Overlay.TouchEnd` | pencheck.js:180-188 | touchend and touchcancel: the touch count is 0 and drawing stops; strokes, last point, pointer events and canvas unchanged |
| `Pen.ResizeTwice` | pencheck.js:16-45 | two layout passes over unchanged geometry give the same canvas position and size |
| `Pen.FirstStrokeScenario` | pencheck.js:107-111 | a press at canvas point (50, 50) inside the single section starts the stroke [(50, 50), (50, 50)] with opacity 0.7 |
| `Pen.PinchScenario` | pencheck.js:166-178 | after a two-touch start, a touch move appends no point and leaves the last point alone, and pointer events are off |

## Left out

- Canvas painting calls (`clearRect`, paths, colour, width, caps and joins, lines 130-147) are rendering only. The model keeps which strokes are painted (`Pen.Overlay.DrawLines`).
- Creating and styling the canvas and the checkboxes (lines 3-9, 40-44) is presentation with no logic.
- Listener registration, `DOMContentLoaded` and `preventDefault` are browser wiring. Each handler is a method. The mouse handlers are `StartDrawing`, `Draw` and `StopDrawing` themselves. One `TouchEnd` serves both touchend and touchcancel.
- The pointer-events flag is modelled as state only. The browser sending events to the page instead of the canvas while it is off is not modelled: handlers run whenever the environment calls them.
- The `requestAnimationFrame` loop never ends. `Animate` models one frame, with `Date.now()` passed as `now`.
- DOM reads are parameters: `querySelectorAll`, `getBoundingClientRect` and `window.scrollY`. The canvas `offsetLeft`/`offsetTop` are taken to be the `left`/`top` that `resizeCanvas` last set. That holds when the body is the canvas' offset parent, up to the browser's rounding.
- Coordinates are integers and opacity is an exact real. Floating point and the conversion of `canvas.width`/`canvas.height` to unsigned integers (truncation, wrap-around of a negative value) are not modelled.
- The clock is not assumed to be monotonic. The bound opacity <= 0.7 is stated only for strokes that did not start after `now`.
- Touch events with no touches: `getPoint` reads the first touch, which a browser always supplies on touchstart and touchmove. `StartDrawing`, `Draw`, `TouchStart` and `TouchMove` require it where it is read.
- Draw: the repaint that `draw` triggers is not returned by `Draw`. Which strokes a repaint draws is `Pen.Overlay.DrawLines`.

## Findings

| source | as written | input that shows it | evidently intended | confidence | as-written member | corrected member |
|---|---|---|---|---|---|---|
| pencheck.js:158 | opacity = max(0, 0.7 - elapsed / 3000), so a stroke loses 1/3000 per ms from 0.7 and disappears after 2100 ms | elapsed = 2100 ms gives 0 and the stroke is removed; elapsed = 1500 ms gives 0.2 | the fade lasts fadeOutDuration = 3000 ms, as line 13 says: opacity 0.7 * (1 - elapsed / 3000), 0.35 at 1500 ms and 0 at 3000 ms | medium (not executed) | `Strokes.FadeAsWrittenEndsEarly` | `Strokes.Fade` |
