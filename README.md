# Bézier control-point editors

This project models the interactive core of the site's Bézier curve pages: the
editors that keep a fixed-length array of 2D control points (three for a
quadratic curve, four for a cubic one) and change it in response to pointer
and text-field events. The same editor exists in several copies with small
differences, and each copy is modelled:

- `CurveCubic`: the cubic editor saved before a reversion. Canvas dragging,
  numeric entry that ignores NaN, a vertical drag on the numeric fields, and a
  relative mode that ties P1 to P0 and P2 to P3 by offsets.
- `CurveQuadratic`: the quadratic editor. Canvas dragging and numeric entry
  that stores whatever `parseInt` returned, NaN included.
- `Splines`: the two-curve page. One selection tagged with its curve, numeric
  entry without validation, and a relative-mode linker that works on four
  separate points p0..p3, not on the cubic curve.
- `PointNotation`: the two-curve clip whose mode button rewrites the cubic
  curve between absolute coordinates and offsets from the anchors.
- `RelativeLinker`: the stand-alone relative-mode clip. The `Splines` page
  embeds the same code (client/components/Splines.tsx:181-210), so
  `Splines.Editor` owns a `RelativeLinker.Linker`.
- `Geometry`: what all copies share. Points, parsed numbers (`Num`, an integer
  or NaN), the 5-pixel hit test, `clamp`, clamping to the 400×300 canvas, and
  the rule of the press scan. Each copy's `forEach` calls `setDraggingPoint`
  on every hit, so the last hit wins.

Each editor has two parts. The first is a state datatype with one function per
event handler, giving the handler's effect on that state; lemmas relate
several handlers. The second is a class holding the same state in fields and
arrays. Its methods update the state in place and prove
`Snapshot() == F(old(Snapshot()), …)` against those functions. Each React
handler is one atomic method. The relative-mode `useEffect` is a method of its
own (`ApplyRelativeEffect`) that a caller runs after a handler.

Three behaviours of the code are worth knowing; the model follows the code
in each:

- When several points are within the radius, the highest index is selected.
- In the cubic field drag, moving the pointer up increases the value
  (`initialY - clientY`), and the drag always writes P0.x.
- In the cubic editor numeric entry does not re-run the relative effect (see
  "Left out").

## Model

| member | source | states |
|---|---|---|
| Geometry.Clamp | client/components/curves-and-splines/gpt-pair-programming-clips/CurveCubic-pre-reversion-save.tsx:19 | the result never exceeds hi; with lo ≤ hi it lies in [lo, hi], equals v when v is already in range, is lo below the range and hi above it |
| Geometry.Bound | client/components/curves-and-splines/gpt-pair-programming-clips/CurveCubic-pre-reversion-save.tsx:160-163 | with bounds enforced the written position lies in [0, 400]×[0, 300], each coordinate clamped to the nearest edge; without bounds, or for a pointer already on the canvas, it is the pointer itself |
| Geometry.Hit | client/components/curves-and-splines/gpt-pair-programming-clips/CurveCubic-pre-reversion-save.tsx:15-17 | a press on the point itself hits, and a hit (distance at most 5) lies within 5 pixels of the point on each axis |
| Geometry.HitNum | client/components/curves-and-splines/CurveQuadratic.tsx:7-9 | a point with a NaN coordinate is never hit; a point with numeric coordinates is hit exactly when the plain hit test says so |
| Geometry.HitBoundaryInclusive | client/components/curves-and-splines/CurveQuadratic.tsx:7-9 | the radius is inclusive: a press at distance exactly 5 hits, one at distance √32 does not |
| Geometry.LastTrue | client/components/curves-and-splines/gpt-pair-programming-clips/CurveCubic-pre-reversion-save.tsx:140-144 | the index a last-wins scan leaves behind is a set flag with no set flag after it; None exactly when no flag is set |
| Geometry.Pressed | client/components/curves-and-splines/gpt-pair-programming-clips/CurveCubic-pre-reversion-save.tsx:140-144 | if some point is hit, the result is a hit index with no hit index above it; if none is hit, the previous selection is kept |
| Geometry.PressedNum | client/components/curves-and-splines/CurveQuadratic.tsx:82-86 | the same for points that may hold NaN, which are never hit |
| Geometry.ScanPress | client/components/curves-and-splines/gpt-pair-programming-clips/001-point-notation-mode-select-canvas-limits.tsx:128-132 | the in-order scan over the point array that records every hit ends with the selection `Pressed` describes |
| Geometry.ScanPressNum | client/components/Splines.tsx:129-133 | the same scan over points that may hold NaN ends with the selection `PressedNum` describes |
| CurveCubic.Initial | client/components/curves-and-splines/gpt-pair-programming-clips/CurveCubic-pre-reversion-save.tsx:66-81 | the editor starts with points (50,150), (150,50), (250,250), (350,150), absolute mode, nothing selected, no field drag, and offsets that link the initial points |
| CurveCubic.Press | client/components/curves-and-splines/gpt-pair-programming-clips/CurveCubic-pre-reversion-save.tsx:132-145 | a press selects the highest index within distance 5; a press that hits nothing leaves the selection unchanged; nothing else changes |
| CurveCubic.Move | client/components/curves-and-splines/gpt-pair-programming-clips/CurveCubic-pre-reversion-save.tsx:148-180 | without a selection nothing changes; with selection i only point i changes, to the (clamped) pointer, staying on the canvas when bounds are enforced; in relative mode dragging P1 sets p1Offset to new P1 − P0 and dragging P2 sets p2Offset to new P2 − P3; other drags keep both offsets |
| CurveCubic.Release | client/components/curves-and-splines/gpt-pair-programming-clips/CurveCubic-pre-reversion-save.tsx:183-185 | mouse-up clears the selection whatever it was and changes nothing else |
| CurveCubic.Toggle | client/components/curves-and-splines/gpt-pair-programming-clips/CurveCubic-pre-reversion-save.tsx:87-94 | the mode always flips and no point moves; switching on captures offsets under which the current points are linked; switching off keeps the offsets |
| CurveCubic.Relink | client/components/curves-and-splines/gpt-pair-programming-clips/CurveCubic-pre-reversion-save.tsx:100-114 | P0 and P3 never change; when off nothing changes; when on, P1 becomes P0 + p1Offset unless a point other than P0 is dragged, and P2 becomes P3 + p2Offset unless a point other than P3 is dragged; idle in relative mode the result is linked |
| CurveCubic.Input | client/components/curves-and-splines/gpt-pair-programming-clips/CurveCubic-pre-reversion-save.tsx:217-226 | NaN leaves the state unchanged; a number replaces the addressed coordinate of the addressed point, and the other axis and the other points are untouched |
| CurveCubic.DragStart | client/components/curves-and-splines/gpt-pair-programming-clips/CurveCubic-pre-reversion-save.tsx:188-193 | pressing a numeric field captures that field's current value and the pointer's Y and changes nothing else |
| CurveCubic.DragTo | client/components/curves-and-splines/gpt-pair-programming-clips/CurveCubic-pre-reversion-save.tsx:196-207 | without a field drag nothing changes; with one the addressed coordinate becomes the captured value plus (initial Y − current Y), and nothing else changes |
| CurveCubic.DragEnd | client/components/curves-and-splines/gpt-pair-programming-clips/CurveCubic-pre-reversion-save.tsx:210-214 | ending a field drag clears the drag state and changes nothing else |
| CurveCubic.ContainerMove | client/components/curves-and-splines/gpt-pair-programming-clips/CurveCubic-pre-reversion-save.tsx:257-260 | the container's mouse-move changes at most P0.x: P0.y and P1..P3 are untouched |
| CurveCubic.FieldDragWritesP0X | client/components/curves-and-splines/gpt-pair-programming-clips/CurveCubic-pre-reversion-save.tsx:259 | as wired, a field drag started on any field writes that field's captured value plus the upward travel into P0.x and changes no other coordinate |
| CurveCubic.ToggleOnKeepsPoints | client/components/curves-and-splines/gpt-pair-programming-clips/CurveCubic-pre-reversion-save.tsx:89-109 | switching relative mode on and running the effect leaves all four points where they were |
| CurveCubic.RelinkIdempotent | client/components/curves-and-splines/gpt-pair-programming-clips/CurveCubic-pre-reversion-save.tsx:100-114 | running the effect a second time changes nothing |
| CurveCubic.AnchorDragCarriesInterior | client/components/curves-and-splines/gpt-pair-programming-clips/CurveCubic-pre-reversion-save.tsx:104-110 | in relative mode with linked points, dragging P0 (or P3) and running the effect moves P1 (or P2) by the same displacement and leaves the other interior point alone |
| CurveCubic.InteriorDragSticks | client/components/curves-and-splines/gpt-pair-programming-clips/CurveCubic-pre-reversion-save.tsx:170-176 | in relative mode a dragged P1 or P2 stays where the pointer left it through the effect, the release and the effect after the release, and the points end up linked |
| CurveCubic.AnchorDragScenario | client/components/curves-and-splines/gpt-pair-programming-clips/CurveCubic-pre-reversion-save.tsx:100-114 | relative mode on over the initial points, P0 grabbed at (50,150) and dragged to (60,140): P1 becomes (160,40), P2 and P3 stay |
| CurveCubic.Step | client/components/curves-and-splines/gpt-pair-programming-clips/CurveCubic-pre-reversion-save.tsx:87-185 | one canvas event or mode click on a state with no field drag in progress that the relative effect has settled, followed by the effect: the result is settled again, no field drag starts, only a drag step moves P0 or P3, only the mode button flips the mode, a release leaves nothing selected, and after a drag step the dragged point sits at the (clamped) pointer |
| CurveCubic.Run | client/components/curves-and-splines/gpt-pair-programming-clips/CurveCubic-pre-reversion-save.tsx:87-185 | over a sequence of such steps from a settled state with no field drag: the result is settled and no field drag starts, without a drag step P0 and P3 end where they started, and without a mode click the mode is unchanged |
| CurveCubic.StepKeepsLinked | client/components/curves-and-splines/gpt-pair-programming-clips/CurveCubic-pre-reversion-save.tsx:87-185 | with no field drag in progress, one canvas press, drag step, release or mode switch, followed by the relative effect, leaves P1 = P0 + p1Offset and P2 = P3 + p2Offset whenever relative mode is on, provided that held before |
| CurveCubic.RunKeepsLinked | client/components/curves-and-splines/gpt-pair-programming-clips/CurveCubic-pre-reversion-save.tsx:87-185 | by induction over any sequence of canvas events and mode switches from a state with no field drag, each followed by the effect: while relative mode is on, P1 and P2 stay at their anchors plus their offsets |
| CurveCubic.BubbledHandlersIdle | client/components/curves-and-splines/gpt-pair-programming-clips/CurveCubic-pre-reversion-save.tsx:210-214 | with no field drag in progress, the container handlers that a canvas mouse-up or mouse-move bubbles to (lines 257-259) change nothing |
| CurveCubic.FieldDragBreaksLink | client/components/curves-and-splines/gpt-pair-programming-clips/CurveCubic-pre-reversion-save.tsx:148-214 | with a field drag in progress, a canvas drag of P1 in relative mode followed by the container's drag step on P0.x and the effect leaves P0 = (60,150), P1 = (160,60) and p1Offset = (110,-90): the points are no longer linked |
| CurveCubic.RelativeEffectIgnoresBounds | client/components/curves-and-splines/gpt-pair-programming-clips/CurveCubic-pre-reversion-save.tsx:100-114 | bounds are enforced only on the point under the pointer: with bounds on and relative mode on, dragging P0 of the initial curve to (0,0) carries P1 to (100,-100), off the canvas |
| CurveCubic.Editor.constructor | client/components/curves-and-splines/gpt-pair-programming-clips/CurveCubic-pre-reversion-save.tsx:66-81 | the fields and the 4-element array start as `Initial` describes |
| CurveCubic.Editor.ToggleRelative | client/components/curves-and-splines/gpt-pair-programming-clips/CurveCubic-pre-reversion-save.tsx:87-94 | the fields change as `Toggle` describes; the array is untouched |
| CurveCubic.Editor.ApplyRelativeEffect | client/components/curves-and-splines/gpt-pair-programming-clips/CurveCubic-pre-reversion-save.tsx:100-114 | the array changes in place as `Relink` describes |
| CurveCubic.Editor.MouseDown | client/components/curves-and-splines/gpt-pair-programming-clips/CurveCubic-pre-reversion-save.tsx:132-145 | the selection field changes as `Press` describes |
| CurveCubic.Editor.MouseMove | client/components/curves-and-splines/gpt-pair-programming-clips/CurveCubic-pre-reversion-save.tsx:148-180 | the array element and the offset fields change as `Move` describes |
| CurveCubic.Editor.MouseUp | client/components/curves-and-splines/gpt-pair-programming-clips/CurveCubic-pre-reversion-save.tsx:183-185 | the selection is cleared |
| CurveCubic.Editor.HandleDragStart | client/components/curves-and-splines/gpt-pair-programming-clips/CurveCubic-pre-reversion-save.tsx:188-193 | the drag state is set as `DragStart` describes |
| CurveCubic.Editor.HandleDrag | client/components/curves-and-splines/gpt-pair-programming-clips/CurveCubic-pre-reversion-save.tsx:196-207 | the array changes in place as `DragTo` describes |
| CurveCubic.Editor.HandleDragEnd | client/components/curves-and-splines/gpt-pair-programming-clips/CurveCubic-pre-reversion-save.tsx:210-214 | the drag state is cleared |
| CurveCubic.Editor.ContainerMouseMove | client/components/curves-and-splines/gpt-pair-programming-clips/CurveCubic-pre-reversion-save.tsx:257-260 | the array changes as `ContainerMove` describes |
| CurveCubic.Editor.InputChange | client/components/curves-and-splines/gpt-pair-programming-clips/CurveCubic-pre-reversion-save.tsx:217-226 | the array changes in place as `Input` describes |
| CurveQuadratic.Initial | client/components/curves-and-splines/CurveQuadratic.tsx:53-60 | the editor starts with points (50,150), (200,50), (350,150) and no selection |
| CurveQuadratic.Press | client/components/curves-and-splines/CurveQuadratic.tsx:74-87 | a press selects the highest index within distance 5; a press that hits nothing leaves the selection unchanged; a NaN point is never hit |
| CurveQuadratic.Move | client/components/curves-and-splines/CurveQuadratic.tsx:89-111 | without a selection nothing changes; with selection i only point i changes, to the (clamped) pointer, staying on the canvas when bounds are enforced; the length stays 3 |
| CurveQuadratic.Release | client/components/curves-and-splines/CurveQuadratic.tsx:113-115 | mouse-up clears the selection whatever it was |
| CurveQuadratic.Input | client/components/curves-and-splines/CurveQuadratic.tsx:117-127 | the parsed value, NaN included, replaces exactly one coordinate of one point; a point given a NaN coordinate cannot be hit by any press |
| CurveQuadratic.NaNPointNeverGrabbed | client/components/curves-and-splines/CurveQuadratic.tsx:117-127 | after a NaN is typed into a point, a press selects that point only if it was already selected |
| CurveQuadratic.DragP1Scenario | client/components/curves-and-splines/CurveQuadratic.tsx:53-111 | pressing at P1 of the initial curve selects index 1, and dragging it to (210,60) with bounds off gives exactly [[50,150],[210,60],[350,150]] |
| CurveQuadratic.Step | client/components/curves-and-splines/CurveQuadratic.tsx:74-115 | one canvas event: only a drag step with a point selected moves a point, putting it at the (clamped) pointer; a release leaves nothing selected |
| CurveQuadratic.Run | client/components/curves-and-splines/CurveQuadratic.tsx:74-115 | over a sequence of canvas events, presses and releases alone never move a point |
| CurveQuadratic.InitialOnCanvas | client/components/curves-and-splines/CurveQuadratic.tsx:53-60 | the three initial points lie on the 400×300 canvas |
| CurveQuadratic.StepStaysOnCanvas | client/components/curves-and-splines/CurveQuadratic.tsx:89-111 | with bounds enforced, one press, drag step or release keeps every point on the canvas |
| CurveQuadratic.RunStaysOnCanvas | client/components/curves-and-splines/CurveQuadratic.tsx:74-115 | by induction over any sequence of presses, drag steps and releases with bounds enforced, every point stays on the canvas however far the pointer goes |
| CurveQuadratic.Editor.constructor | client/components/curves-and-splines/CurveQuadratic.tsx:53-60 | the 3-element array and the selection start as `Initial` describes |
| CurveQuadratic.Editor.MouseDown | client/components/curves-and-splines/CurveQuadratic.tsx:74-87 | the selection field changes as `Press` describes |
| CurveQuadratic.Editor.MouseMove | client/components/curves-and-splines/CurveQuadratic.tsx:89-111 | the array changes in place as `Move` describes |
| CurveQuadratic.Editor.MouseUp | client/components/curves-and-splines/CurveQuadratic.tsx:113-115 | the selection is cleared |
| CurveQuadratic.Editor.InputChange | client/components/curves-and-splines/CurveQuadratic.tsx:117-127 | the array changes in place as `Input` describes |
| Splines.Initial | client/components/Splines.tsx:81-190 | the page starts with the default quadratic and cubic curves, no selection and the linker's initial state |
| Splines.Press | client/components/Splines.tsx:121-134 | a press on one curve's canvas selects (that curve, highest hit index); a miss leaves the selection unchanged |
| Splines.Move | client/components/Splines.tsx:136-161 | only the selected curve's selected point changes, to the (clamped) pointer; the other curve is untouched; lengths stay 3 and 4 |
| Splines.Release | client/components/Splines.tsx:163-165 | mouse-up clears the selection whatever it was |
| Splines.Input | client/components/Splines.tsx:167-179 | the parsed value, NaN included, replaces exactly one coordinate of one point of the addressed curve; the other curve is untouched |
| Splines.Toggle | client/components/Splines.tsx:192-199 | the mode button flips the linker's mode and links its points when switching on; none of the linker's four points moves; neither curve nor the selection changes |
| Splines.Relink | client/components/Splines.tsx:202-210 | in relative mode the linker's points become linked; the linker's anchors, offsets and mode stay; in absolute mode nothing changes; the curves are never affected |
| Splines.NaNPointNeverGrabbed | client/components/Splines.tsx:167-179 | after a NaN is typed into a point, a press on its canvas selects that point only if it was already selected |
| Splines.Editor.constructor | client/components/Splines.tsx:77-190 | the two arrays, the selection and the linker start as `Initial` describes |
| Splines.Editor.MouseDown | client/components/Splines.tsx:121-134 | the selection field changes as `Press` describes |
| Splines.Editor.MouseMove | client/components/Splines.tsx:136-161 | the selected curve's array changes in place as `Move` describes |
| Splines.Editor.MouseUp | client/components/Splines.tsx:163-165 | the selection is cleared |
| Splines.Editor.InputChange | client/components/Splines.tsx:167-179 | the addressed curve's array changes in place as `Input` describes |
| Splines.Editor.ToggleRelative | client/components/Splines.tsx:192-199 | the linker changes as `Toggle` describes |
| Splines.Editor.ApplyRelativeEffect | client/components/Splines.tsx:202-210 | the linker changes as `Relink` describes |
| PointNotation.Initial | client/components/curves-and-splines/gpt-pair-programming-clips/001-point-notation-mode-select-canvas-limits.tsx:80-94 | the page starts with the default curves in absolute notation and no selection |
| PointNotation.ToRelative | client/components/curves-and-splines/gpt-pair-programming-clips/001-point-notation-mode-select-canvas-limits.tsx:177-184 | absolute→relative keeps P0 and P3, and the new P1 and P2 are the offsets that carry P0 onto P1 and P3 onto P2 |
| PointNotation.ToAbsolute | client/components/curves-and-splines/gpt-pair-programming-clips/001-point-notation-mode-select-canvas-limits.tsx:169-176 | relative→absolute keeps P0 and P3, and the new P1 and P2 lie at their anchors plus the stored offsets |
| PointNotation.AbsoluteRoundTrip | client/components/curves-and-splines/gpt-pair-programming-clips/001-point-notation-mode-select-canvas-limits.tsx:168-186 | converting to relative notation and back restores the cubic points exactly |
| PointNotation.RelativeRoundTrip | client/components/curves-and-splines/gpt-pair-programming-clips/001-point-notation-mode-select-canvas-limits.tsx:168-186 | converting to absolute notation and back restores the stored offsets exactly |
| PointNotation.Toggle | client/components/curves-and-splines/gpt-pair-programming-clips/001-point-notation-mode-select-canvas-limits.tsx:166-187 | the mode flips, the cubic curve is rewritten into the other notation (anchors kept, length 4), and the quadratic curve and selection are untouched |
| PointNotation.ToggleTwiceRestores | client/components/curves-and-splines/gpt-pair-programming-clips/001-point-notation-mode-select-canvas-limits.tsx:166-187 | pressing the mode button twice restores the whole state exactly |
| PointNotation.Press | client/components/curves-and-splines/gpt-pair-programming-clips/001-point-notation-mode-select-canvas-limits.tsx:120-133 | a press on one curve's canvas selects (that curve, highest hit index); a miss leaves the selection unchanged |
| PointNotation.Move | client/components/curves-and-splines/gpt-pair-programming-clips/001-point-notation-mode-select-canvas-limits.tsx:135-160 | only the selected point changes, to the (clamped) pointer; without a selection nothing changes; the other curve is untouched |
| PointNotation.Release | client/components/curves-and-splines/gpt-pair-programming-clips/001-point-notation-mode-select-canvas-limits.tsx:162-164 | mouse-up clears the selection whatever it was |
| PointNotation.Editor.constructor | client/components/curves-and-splines/gpt-pair-programming-clips/001-point-notation-mode-select-canvas-limits.tsx:80-94 | the two arrays and the flags start as `Initial` describes |
| PointNotation.Editor.ToggleRelative | client/components/curves-and-splines/gpt-pair-programming-clips/001-point-notation-mode-select-canvas-limits.tsx:166-187 | the cubic array's interior points are rewritten in place and the mode flips, as `Toggle` describes |
| PointNotation.Editor.MouseDown | client/components/curves-and-splines/gpt-pair-programming-clips/001-point-notation-mode-select-canvas-limits.tsx:120-133 | the selection field changes as `Press` describes |
| PointNotation.Editor.MouseMove | client/components/curves-and-splines/gpt-pair-programming-clips/001-point-notation-mode-select-canvas-limits.tsx:135-160 | the selected curve's array changes in place as `Move` describes |
| PointNotation.Editor.MouseUp | client/components/curves-and-splines/gpt-pair-programming-clips/001-point-notation-mode-select-canvas-limits.tsx:162-164 | the selection is cleared |
| RelativeLinker.Initial | client/components/curves-and-splines/gpt-pair-programming-clips/003-relative-refinement.tsx:5-13 | the linker starts in absolute mode with p0..p3 at (10,10), (15,20), (30,40), (50,60), linked, and offsets (5,10) and (−20,−20) |
| RelativeLinker.Toggle | client/components/curves-and-splines/gpt-pair-programming-clips/003-relative-refinement.tsx:16-23 | the mode always flips and no point moves; only switching on recaptures the offsets, which then link the current points |
| RelativeLinker.Relink | client/components/curves-and-splines/gpt-pair-programming-clips/003-relative-refinement.tsx:26-34 | in relative mode p1 = p0 + p1Offset and p2 = p3 + p2Offset afterwards, with p0, p3, the offsets and the mode unchanged; in absolute mode nothing changes |
| RelativeLinker.ToggleOnKeepsPoints | client/components/curves-and-splines/gpt-pair-programming-clips/003-relative-refinement.tsx:18-32 | switching on and running the effect leaves p1 and p2 where they were |
| RelativeLinker.ToggleOnOffOnKeepsPoints | client/components/curves-and-splines/gpt-pair-programming-clips/003-relative-refinement.tsx:16-34 | switching on, off and on again without moving a point, with the effect after each switch, leaves all four points in place and recaptures the same offsets |
| RelativeLinker.AnchorMoveCarriesInterior | client/components/curves-and-splines/gpt-pair-programming-clips/003-relative-refinement.tsx:26-34 | while linked in relative mode, moving p0 (or p3) by d and running the effect moves p1 (or p2) by the same d and leaves the other pair alone |
| RelativeLinker.Linker.constructor | client/components/curves-and-splines/gpt-pair-programming-clips/003-relative-refinement.tsx:5-13 | the fields start as `Initial` describes |
| RelativeLinker.Linker.ToggleRelative | client/components/curves-and-splines/gpt-pair-programming-clips/003-relative-refinement.tsx:16-23 | the fields change as `Toggle` describes |
| RelativeLinker.Linker.ApplyRelativeEffect | client/components/curves-and-splines/gpt-pair-programming-clips/003-relative-refinement.tsx:26-34 | the fields change as `Relink` describes |

## Left out

- Rendering (`drawLabeledPoint`, `drawQuadraticBezier`, `drawCubicBezier` and the redraw effects): these are calls into the browser's 2D drawing API, which is not part of this model.
- React scheduling and batching, refs and JSX markup: each handler is one atomic step. In the editors that render their canvases, the `if (!canvas) return` guards are left out because the canvas exists once the component is mounted.
- When the relative effect runs: React re-runs it only when one of its dependencies changes by reference. `ApplyRelativeEffect` is a separate method for the caller to run after a handler. The model does not capture that the cubic editor's `handleInputChange` and `handleDrag` write into the existing inner arrays. Because of that, `points[0]` keeps its identity and the source does not re-run the effect after numeric entry or a field drag on P0 or P3.
- `getBoundingClientRect` and the client-to-canvas offset: pointer positions are passed in canvas-local form, and the field drag receives the raw `clientY`.
- Number representation: coordinates are exact integers, not IEEE doubles. Fractional pointer positions, `parseFloat` fractions and rounding are not modelled. A parsed value is a `Num`: an integer, or NaN when parsing fails. `Math.hypot(...) <= 5` is modelled as an exact squared-distance comparison.
- `enforceBounds` is a constructor parameter, because `setEnforceBounds` is never called.
- The cubic editor's `DragState.isDragging` is always true when a drag state exists, so the state is modelled as `Option<FieldDrag>`. `e.preventDefault()` in `handleDragStart` is browser glue.
- CurveCubic.Step, CurveCubic.Run, CurveCubic.StepKeepsLinked, CurveCubic.RunKeepsLinked: these cover only states with no field drag in progress. The canvas sits inside the container (lines 257-273), so every canvas event also bubbles to the container. A canvas mouse-up also runs `handleDragEnd`, and a canvas mouse-move also runs the container's drag step on P0.x after the canvas handler. With no field drag these do nothing (`CurveCubic.BubbledHandlersIdle`). With a field drag in progress, the drag step writes into the existing P0 array in place. Whether React then re-runs the relative effect depends on which dependencies changed by reference, which the model does not track, and the link can break (`CurveCubic.FieldDragBreaksLink`). The class methods `MouseMove` and `ContainerMouseMove` give the two move handlers separately. CurveCubic.Step and CurveCubic.Run also start only from a state the relative effect has settled (running it changes nothing). After numeric entry on an anchor in relative mode the state is not settled: the effect did not re-run (see the line on when the relative effect runs). A later missed press or a release with nothing selected changes no dependency either, so the source still does not re-run it, while `Relink` would move the interior point.
- On the Splines page the page `div` handles mouse-up (client/components/Splines.tsx:213), so a click on the mode button also clears the drag selection. `Splines.Toggle` models the button's own handler only.
- Nothing in the Splines page or the stand-alone linker clip ever calls `setP0` or `setP3`. `RelativeLinker.AnchorMoveCarriesInterior` states what the effect does when an anchor changes; no handler in these files changes one.
- The point-notation clip renders no canvases or numeric fields. Its page `div` wires the mouse-move and mouse-up handlers, and its button wires the mode toggle (client/components/curves-and-splines/gpt-pair-programming-clips/001-point-notation-mode-select-canvas-limits.tsx:190-194). Nothing calls `handleMouseDown`: the markup has no `onMouseDown`. So `draggingPoint` stays null, and `handleMouseMove` returns at its first guard (line 135). As written, no point can be selected or moved there. `PointNotation.Press` and `PointNotation.Move` model those handlers as if the canvases were rendered and wired.
- client/components/Curvature.tsx, Router.tsx, Nav.tsx, Header.tsx, Playground.tsx, Home.tsx and Metronome.tsx (page switching, navigation, a stored tab preference, static markup) are not part of this model. Neither is the 002 clip, which is entirely commented out.
