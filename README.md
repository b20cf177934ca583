# Ferguson patch editor: a Dafny model of its geometric core

The editor shows a bicubic Ferguson patch bounded by four cubic Hermite
curves `h0..h3`. Every curve has four round handles:

- `cp0` and `cp1` on its end points;
- `ct0` and `ct1` on the tips of its tangents.

Pressing on a handle selects it. Moving the mouse drags the selected handle
and reshapes the curve. Releasing the button drops it. The patch point
`s(u, v)` is blended from the curves' end points and scaled tangents. A
probe shows the two cross-section lines of the surface through `s(u, v)` and
a small marker circle there. Everything the renderer draws comes from flat
float buffers of `(x, y)` pairs:

- one block per curve, holding its samples, its two tangent lines and four
  handle fans;
- after the four curves, the probe block.

This project models that core in Dafny and proves what it does.

- `geometry.dfy`, module `Geometry`:
  - plane points;
  - the flat point buffers (`Flatten`, `PointAt`);
  - the map from pixel to viewport coordinates (`ToViewportCoordSystem`).
- `handles.dfy`, module `Handles`:
  - the handle as a value (`Disc`) and its hit test;
  - the outline it contributes to a buffer;
  - the loop that fills point pairs into an array (`FillPairs`);
  - the mutable `Circle` class used for the probe marker.
- `hermite.dfy`, module `Hermite`:
  - the curve basis and the curve as a value (`Shape`);
  - sampling and the per-curve buffer layout;
  - the press, move and release state machine as pure functions over `CurveState`;
  - the screen-to-world map;
  - the class `HermiteCurveComputer`, whose methods are proved to leave exactly the state those functions give.
- `surface.dfy`, modules `PatchSurface` and `SurfaceFacts`:
  - the patch basis and the surface `s(u, v)`;
  - the probe lines and the probe buffer;
  - facts about corners, edges and flat patches.
- `patch.dfy`, module `Patch`:
  - the class `FergusonPatch`: its vertex buffer, the probe buffer computed with two array-filling loops, the display flags, and the dispatch of mouse events to the four curves;
  - where each curve's block lies in the shared buffer.
- `legacy.dfy`, module `Legacy`:
  - the single-curve editor `HermiteCurve`, with its own handle order, buffer order and constants.

Conventions of the model:

- Numbers are reals, so single-precision rounding is not modelled.
- The cosine and sine of the outline angles are a parameter `trig` of type `Trig`.
- The canvas is a value `Canvas`: its size in pixels and the bounds of its view volume.
- Each handle of a curve is a `Disc` value held in a field. The curve owns
  its handles by value, so selecting a handle replaces that field.

Some consequences of the code that a reader might not expect:

- **Corners.** `s(0, 0)` is `h0.p0` and `s(0, 1)` is `h0.p1`: `v` runs along `h0`. `s(1, 0)` is `h2.p0` and `s(1, 1)` is `h2.p1`. See `PatchSurface.SurfaceCorners`.
- **Edges.** The edge at `u = 0` is not the curve `h0`. It is the unit-scale curve with `h0`'s scaled start tangent and its negated scaled end tangent.
- **Selection.** Selection is kept per curve, not per patch:
  - a press at a point that two curves share as their start point selects the start handle of both (`Hermite.SharedCornerSelectsBoth`). At a shared end point the same holds when each curve's earlier handles, cp0 and ct0, miss the press (`Hermite.SharedEndSelectsBoth`);
  - a second press before a release adds a selection and keeps the first one (`Hermite.PressSelectsFirstHit`).
- **Middle rows.** The two middle rows of `s` carry only their position terms, so each is a two-term blend (`PatchSurface.Blend2`).

## Model

| member | source | states |
|---|---|---|
| Geometry.ToViewportCoordSystem | src/ferguson_patch.cpp:359-362 | maps a pixel position to viewport coordinates, x scaled to [-1, 1] left to right and y flipped; its corners are stated by `Geometry.ViewportCorners` |
| Geometry.ViewportCorners | src/ferguson_patch.cpp:359-362 | the top-left pixel maps to (-1, 1), the bottom-right pixel to (1, -1), the middle pixel to the origin |
| Handles.Disc.Contains | src/ferguson_patch.cpp:30-38 | the hit test compares squared distance with squared radius; `Handles.ContainsCentreAndRim` states which points it accepts |
| Handles.ContainsCentreAndRim | src/ferguson_patch.cpp:30-38 | the hit test accepts the centre and every point at exactly the radius (`<=`, rim included) |
| Handles.HitIgnoresSelection | src/ferguson_patch.cpp:30-38 | the hit test depends only on centre and radius, never on the selection flag |
| Handles.UnitDiscScenario | src/ferguson_patch.cpp:30-38 | a unit handle at the origin contains (0.99, 0) and not (1.01, 0) |
| Handles.OutlinePoints | src/ferguson_patch.cpp:13-28 | the outline holds rim point i at slot i for every step i. Its last pair stays (0, 0). The centre written first survives only when there are no steps |
| Handles.FillPairs | src/ferguson_patch.cpp:21-25 | the loop writes point f(j) into floats 2(k+j) and 2(k+j)+1 for every j < n, and leaves every other float of the array as it was |
| Handles.ComputeOutline | src/ferguson_patch.cpp:13-28 | the float array built by writing the centre and then the rim steps equals the outline specification |
| Handles.Circle.constructor | src/ferguson_patch.cpp:9-11 | a new circle has the given centre, radius and segment count and is unselected |
| Handles.Circle.Contains | src/ferguson_patch.cpp:30-38 | the circle's own hit test always accepts its centre |
| Handles.Circle.IsSelected | include/ferguson_patch.hpp:40 | reads the flag that `Select` sets and `Unselect` clears |
| Handles.Circle.Select | include/ferguson_patch.hpp:38 | the circle becomes selected and nothing else changes |
| Handles.Circle.Unselect | include/ferguson_patch.hpp:39 | the circle becomes unselected and nothing else changes |
| Handles.Circle.SetCentre | include/ferguson_patch.hpp:27 | only the centre changes |
| Handles.Circle.SetRadius | include/ferguson_patch.hpp:31 | only the radius changes |
| Handles.Circle.SetResolution | include/ferguson_patch.hpp:23 | only the segment count changes |
| Handles.Circle.ComputePoints | src/ferguson_patch.cpp:13-28 | returns the outline of the circle as it is now |
| Hermite.B0 | src/ferguson_patch.cpp:91-94 | the start point Hermite weight; `Hermite.BasisPartition` and `Hermite.BasisAtEnds` state its values |
| Hermite.B1 | src/ferguson_patch.cpp:96-99 | the end point Hermite weight; `Hermite.BasisPartition` and `Hermite.BasisAtEnds` state its values |
| Hermite.B2 | src/ferguson_patch.cpp:101-104 | the start tangent Hermite weight; `Hermite.BasisPartition` and `Hermite.BasisAtEnds` state its values |
| Hermite.B3 | src/ferguson_patch.cpp:106-109 | the end tangent Hermite weight; `Hermite.BasisPartition` and `Hermite.BasisAtEnds` state its values |
| Hermite.BasisPartition | src/ferguson_patch.cpp:91-99 | the two position weights b0 and b1 sum to one for every u |
| Hermite.BasisAtEnds | src/ferguson_patch.cpp:91-109 | at u = 0 only b0 is non-zero, at u = 1 only b1 |
| Hermite.Shape.At | src/ferguson_patch.cpp:58-64 | the curve point at u, weighting p0, p1 and the scaled tangents; its ends are stated by `Hermite.CurveEnds` |
| Hermite.CurveEnds | src/ferguson_patch.cpp:58-64 | every curve starts at p0 and ends at p1, whatever its tangents and tangent scale |
| Hermite.UnitScaleCurve | hermite_curve.cpp:25 | with tangent scale 1 the curve weights the raw tangents, as the single-curve editor does |
| Hermite.ParamRange | src/ferguson_patch.cpp:55-59 | for n >= 2 samples the sample parameters start at 0, end at 1, and stay inside [0, 1] |
| Hermite.SampleEndpoints | src/ferguson_patch.cpp:52-67 | sample i is the curve at i/(n-1); the first sample is p0 and the last is p1 |
| Hermite.ComputeSamples | src/ferguson_patch.cpp:54-67 | the array filled by the sampling loop equals the flattened sample points |
| Hermite.CurveBufferParts | src/ferguson_patch.cpp:69-74 | the tangent lines are appended as p0, p0 + t0, p1, p1 + t1, with the tangents unscaled |
| Hermite.CurveBufferLayout | src/ferguson_patch.cpp:52-89 | a curve buffer holds n + 4 + 4(m + 1) points: the samples first, the tangent lines from point n on, outline j from point n + 4 + (m + 1)j on |
| Hermite.Press | src/ferguson_patch.cpp:125-140 | a press changes only selection flags and never clears one |
| Hermite.PressSelectsFirstHit | src/ferguson_patch.cpp:125-140 | a press only sets selection flags. It selects the first handle hit in the order cp0, ct0, cp1, ct1 and keeps earlier flags. It changes nothing when no handle is hit, and keeps the handles on their points |
| Hermite.PressFromIdle | src/ferguson_patch.cpp:125-140 | from an idle curve, a press selects at most one handle. It selects one exactly when some handle contains the point, and that handle contains the point |
| Hermite.SharedCornerSelectsBoth | src/ferguson_patch.cpp:422-431 | two synced curves with the same start point both select their start handle on a press there |
| Hermite.PressAtEndSelectsEnd | src/ferguson_patch.cpp:125-140 | on a synced curve, a press on p1 selects cp1 unless cp0 or ct0 takes it first |
| Hermite.SharedEndSelectsBoth | src/ferguson_patch.cpp:422-431 | two synced curves with the same end point both select their end handle on a press there, provided cp0 and ct0 miss it in both |
| Hermite.Drag | src/ferguson_patch.cpp:142-164 | a move never changes the selection or the handle sizes, and changes nothing when no handle is selected |
| Hermite.DragPreservesSync | src/ferguson_patch.cpp:142-164 | a move keeps every handle centred on its point or tangent tip, and never changes the selection, the handle sizes or the tangent scale |
| Hermite.DragEffect | src/ferguson_patch.cpp:142-164 | only the first selected handle acts, in the order cp0, cp1, ct0, ct1. An end point handle sets that end point. A tangent handle sets its tangent to the pointer minus the end point. With nothing selected nothing changes |
| Hermite.DragFollowsPointer | src/ferguson_patch.cpp:142-164 | while a handle is selected, after a move the pointer lies on a selected handle |
| Hermite.DragEndpointBy | src/ferguson_patch.cpp:146-150 | dragging cp0 by delta moves p0 and the tangent handle by delta and keeps the tangent |
| Hermite.DragTangentBy | src/ferguson_patch.cpp:156-159 | dragging ct0 alone by delta adds delta to t0 and keeps p0 |
| Hermite.Release | src/ferguson_patch.cpp:166-172 | after a release no handle is selected and only the flags have changed |
| Hermite.ReleaseClears | src/ferguson_patch.cpp:166-172 | a release clears every flag, changes nothing else, and is idempotent |
| Hermite.ToWorldCoordinate | src/ferguson_patch.cpp:112-123 | maps viewport coordinates linearly into the view volume, x mirrored; `Hermite.WorldCoordinateBounds` states where the centre and edges land |
| Hermite.WorldCoordinateBounds | src/ferguson_patch.cpp:112-123 | the viewport centre maps to the centre of the view volume. Viewport x = -1 maps to the right bound and x = 1 to the left (mirrored); y = ±1 maps to top and bottom |
| Hermite.StockBufferLayout | src/ferguson_patch.cpp:380-404 | with the stock handles, a curve's buffer has n + 48 points, and its tangent lines and four 11-point fans sit exactly where the renderer draws them |
| Hermite.HandlersKeepStockHandles | src/ferguson_patch.cpp:48 | press, move and release keep the stock handle radius 0.2 and 10 segments |
| Hermite.HermiteCurveComputer.constructor | src/ferguson_patch.cpp:41-50 | the four handles start unselected on p0, p0 + t0, p1 and p1 + t1, with radius 0.2 and 10 segments. The start tangent index is left open |
| Hermite.HermiteCurveComputer.Default | include/ferguson_patch.hpp:51-57 | the default arguments give the curve (0.25, 0) to (0.75, 0) with tangents ±(0.1, 0), 10 samples and start index 0 |
| Hermite.HermiteCurveComputer.Copy | src/ferguson_patch.cpp:186 | a copy has the same state and configuration as the original |
| Hermite.HermiteCurveComputer.SetStartIndex | include/ferguson_patch.hpp:61 | sets the start index |
| Hermite.HermiteCurveComputer.SetStartTangentIndex | include/ferguson_patch.hpp:65 | sets the start tangent index |
| Hermite.HermiteCurveComputer.SetResolution | include/ferguson_patch.hpp:69 | sets the sample count |
| Hermite.HermiteCurveComputer.SetP0 | include/ferguson_patch.hpp:73 | replaces p0 alone. The handles are not moved, so a new value breaks the handle invariant |
| Hermite.HermiteCurveComputer.SetT0 | include/ferguson_patch.hpp:77 | replaces t0 alone. A new value breaks the handle invariant |
| Hermite.HermiteCurveComputer.SetP1 | include/ferguson_patch.hpp:81 | replaces p1 alone. A new value breaks the handle invariant |
| Hermite.HermiteCurveComputer.SetT1 | include/ferguson_patch.hpp:85 | replaces t1 alone. A new value breaks the handle invariant |
| Hermite.HermiteCurveComputer.ComputePoints | src/ferguson_patch.cpp:52-89 | returns the buffer of the current state: samples, tangent lines, then the outlines of cp0, ct0, cp1, ct1 |
| Hermite.HermiteCurveComputer.HasControlPointSelected | src/ferguson_patch.cpp:174-177 | true exactly when one of the four handles is selected |
| Hermite.HermiteCurveComputer.MousePress | src/ferguson_patch.cpp:125-140 | the new state is the press at the world point of the pointer; the stock handles are kept; a curve whose handles sit on its points and tangent tips keeps them there |
| Hermite.HermiteCurveComputer.MouseMove | src/ferguson_patch.cpp:142-164 | the new state is the drag to the world point of the pointer; the stock handles are kept; a curve whose handles sit on its points and tangent tips keeps them there |
| Hermite.HermiteCurveComputer.MouseRelease | src/ferguson_patch.cpp:166-172 | the new state is the release: no handle is selected, whatever the position; a curve whose handles sit on its points and tangent tips keeps them there |
| PatchSurface.PB0 | src/ferguson_patch.cpp:238-241 | patch weight 0; `PatchSurface.PatchBasisPermutesCurveBasis` states which curve weight it is |
| PatchSurface.PB1 | src/ferguson_patch.cpp:243-246 | patch weight 1; `PatchSurface.PatchBasisPermutesCurveBasis` states which curve weight it is |
| PatchSurface.PB2 | src/ferguson_patch.cpp:248-251 | patch weight 2; `PatchSurface.PatchBasisPermutesCurveBasis` states which curve weight it is |
| PatchSurface.PB3 | src/ferguson_patch.cpp:253-256 | patch weight 3; `PatchSurface.PatchBasisPermutesCurveBasis` states which curve weight it is |
| PatchSurface.PatchBasisPermutesCurveBasis | src/ferguson_patch.cpp:238-256 | the patch basis is the curve basis reordered: positions first and last, tangents in between |
| PatchSurface.PatchBasisPartition | src/ferguson_patch.cpp:238-256 | the two position weights of the patch basis sum to one |
| PatchSurface.BlendIsCurve | src/ferguson_patch.cpp:276-281 | a four-term row of s is the unit-scale Hermite curve between its two position terms |
| PatchSurface.Surface | src/ferguson_patch.cpp:258-282 | the bicubic point s(u, v) of four curves; `PatchSurface.SurfaceCorners`, `SurfaceEdges` and `SurfaceFlat` state its properties |
| PatchSurface.SurfaceCorners | src/ferguson_patch.cpp:258-282 | s interpolates the four corners: s(0,0) = h0.p0, s(0,1) = h0.p1, s(1,0) = h2.p0, s(1,1) = h2.p1 |
| PatchSurface.SurfaceEdges | src/ferguson_patch.cpp:258-282 | each edge of the patch is a unit-scale Hermite curve between two corners. Its tangents are a boundary curve's scaled start tangent and negated scaled end tangent |
| PatchSurface.FlippedEndTangentMovesMidpoint | src/ferguson_patch.cpp:269-270 | negating a non-zero end tangent moves the curve's midpoint |
| PatchSurface.SurfaceFlat | src/ferguson_patch.cpp:258-282 | with all eight tangents zero, s blends only the four corners, bilinearly in the cubic position weights |
| PatchSurface.ProbeLayout | src/ferguson_patch.cpp:212-236 | the probe buffer holds 4n + 22 floats: the line along v, then the line along u, then the 11-point marker outline |
| PatchSurface.LineEnds | src/ferguson_patch.cpp:215-227 | the line along v runs from s(u, 0) to s(u, 1); the line along u from s(0, v) to s(1, v) |
| SurfaceFacts.EdgeIsNotBoundaryCurve | src/ferguson_patch.cpp:267-281 | whenever h0's scaled end tangent is non-zero, the u = 0 edge differs from h0 at its midpoint |
| SurfaceFacts.SurfaceCentreFlat | src/ferguson_patch.cpp:258-282 | with zero tangents, s(0.5, 0.5) is the midpoint of the midpoints of the two u-sides. That is the average of the four corners (PatchSurface.MidOfMids) |
| Patch.ProbeFromFills | src/ferguson_patch.cpp:214-233 | the array after the two fills, followed by the marker outline, is exactly the probe buffer |
| Patch.BufferOffsets | src/ferguson_patch.cpp:330-357 | under the application's layout, curve k's buffer is the slice at its start index, and the probe block starts right after the four curves |
| Patch.FergusonPatch.constructor | src/ferguson_patch.cpp:181-187 | the curves are copied in, the probe starts at (0.5, 0.5) and hidden, and the handles are shown |
| Patch.FergusonPatch.S | src/ferguson_patch.cpp:258-282 | s of the current curves passes through the four corners h0.p0, h0.p1, h2.p0 and h2.p1 |
| Patch.FergusonPatch.SetResolution | include/ferguson_patch.hpp:128 | sets the probe line resolution |
| Patch.FergusonPatch.ComputePoints | src/ferguson_patch.cpp:189-203 | returns the buffers of h0, h1, h2 and h3, in that order |
| Patch.FergusonPatch.InterpolateInnerPoint | src/ferguson_patch.cpp:205-210 | records the probed (u, v) |
| Patch.FergusonPatch.ComputePointsForInterpolatingLines | src/ferguson_patch.cpp:212-236 | the two sampling loops plus the marker outline produce exactly the probe buffer of the current curves |
| Patch.FergusonPatch.ShowInterpolateLines | include/ferguson_patch.hpp:150 | turns the probe display on |
| Patch.FergusonPatch.HideInterpolateLines | include/ferguson_patch.hpp:151 | turns the probe display off |
| Patch.FergusonPatch.ShowHandlers | include/ferguson_patch.hpp:153 | turns the handles on |
| Patch.FergusonPatch.HideHandlers | include/ferguson_patch.hpp:154 | turns the handles off |
| Patch.FergusonPatch.MousePress | src/ferguson_patch.cpp:422-431 | with the handles shown, every curve takes the press at the viewport point. With them hidden, no curve changes. Buffer placement and the class invariant are kept |
| Patch.FergusonPatch.MouseMove | src/ferguson_patch.cpp:433-457 | every curve ends in the drag of its old state, the probe stays at the same (u, v), and buffer placement and the invariant are kept |
| Patch.FergusonPatch.MoveIfSelected | src/ferguson_patch.cpp:437-441 | one guarded step of the move gives the drag of the curve's state whether or not it has a selection |
| Patch.FergusonPatch.MouseRelease | src/ferguson_patch.cpp:459-466 | every curve ends released with nothing selected |
| Legacy.InitialState | hermite_curve.cpp:5-12 | the initial curve runs from (-0.5, 0) to (0.5, 0), with the handles on their points and radius 0.015 and 15 segments |
| Legacy.LegacyPress | hermite_curve.cpp:167-183 | a press in this editor's order changes only selection flags and never clears one |
| Legacy.LegacyPressSelectsFirstHit | hermite_curve.cpp:167-183 | a press selects the first handle hit in the order cp0, cp1, cd0, cd1 and changes nothing else |
| Legacy.PressOrdersAgree | hermite_curve.cpp:172-182 | the two press orders agree unless a press misses cp0 and hits both cd0 and cp1 |
| Legacy.PressOrdersDiffer | hermite_curve.cpp:172-182 | on such a press, the curve computer takes the tangent handle and this editor takes the end point handle |
| Legacy.LegacyBufferLayout | hermite_curve.cpp:14-47 | the buffer holds n + 4 + 64 points, with 16-point outlines of cp0, cp1, cd0, cd1 from point n + 4 + 16j on |
| Legacy.LegacyBufferSwapsMiddleFans | hermite_curve.cpp:37-44 | this buffer is the curve computer's buffer with the two middle handles swapped |
| Legacy.StrayFlagMovesCurve | hermite_curve.cpp:233-235 | if the uninitialised start point flag reads as set, the first move, with no press before it, drags p0 to the pointer |
| Legacy.FreshCurveIgnoresMoves | hermite_curve.cpp:233-235 | with every flag cleared at construction, a move before any press changes nothing |
| Legacy.HermiteCurve.constructor | hermite_curve.cpp:5-12 | the initial curve, 30 samples, with the selection flags left as whatever they happen to hold |
| Legacy.HermiteCurve.Initialised | hermite_curve.cpp:5-12 | the same initial curve with every handle unselected |
| Legacy.HermiteCurve.SetP0 | include/hermite_curve.hpp:57 | replaces p0 alone; a new value breaks the handle invariant |
| Legacy.HermiteCurve.SetD0 | include/hermite_curve.hpp:62 | replaces d0 alone; a new value breaks the handle invariant |
| Legacy.HermiteCurve.SetP2 | include/hermite_curve.hpp:67 | the setter named p2 replaces the end point p1 |
| Legacy.HermiteCurve.SetD2 | include/hermite_curve.hpp:72 | the setter named d2 replaces the end tangent d1 |
| Legacy.HermiteCurve.ComputePoints | hermite_curve.cpp:14-47 | returns samples, tangent lines, then the outlines of cp0, cp1, cd0, cd1 |
| Legacy.HermiteCurve.MousePress | hermite_curve.cpp:167-183 | the new state is the press in this editor's order, at the viewport point of the pointer; a curve whose handles sit on its points and tangent tips keeps them there |
| Legacy.HermiteCurve.MouseMove | hermite_curve.cpp:185-214 | the new state is the drag to the viewport point of the pointer (no world mapping); a curve whose handles sit on its points and tangent tips keeps them there |
| Legacy.HermiteCurve.MouseRelease | hermite_curve.cpp:216-222 | every handle is unselected and nothing else changes; a curve whose handles sit on its points and tangent tips keeps them there |

## Left out

- Floating point: all arithmetic is exact over the reals, so single-precision rounding, overflow, infinities and NaN are not modelled.
- Hermite.StepSize: the unsigned `n - 1` of a zero sample count is written out as 2^32 - 1. A single sample divides by zero in the source. So the sampling members require `n != 1`:
  - `Samples`;
  - `ComputeSamples`;
  - `HermiteCurveComputer.ComputePoints`;
  - `FergusonPatch.ComputePoints` and `ComputePointsForInterpolatingLines`;
  - `HermiteCurve.ComputePoints`.
- Handles.OutlineVertices: the cosine and sine of step i (angle step 2π / (segments - 1)) come from the parameter `trig`; trigonometry itself is outside the model.
- Geometry.ToViewportCoordSystem requires a canvas of non-zero width and height, because the source divides by both. So do the handlers that call it: `FergusonPatch.MousePress`, `MouseMove` and `MouseRelease`, and `HermiteCurve.MousePress` and `MouseMove`.
- Patch.FergusonPatch.MousePress, MouseMove and MouseRelease require the class invariant `Valid()`: four distinct curves with the stock handles. The constructor establishes it and every handler keeps it.
- OpenGL and Qt are not modelled. That covers:
  - `init`, `setupShaders`, `setupGeometry`, `render`, `cleanUp` and the destructors;
  - the view and projection matrix setters;
  - `updateGPUBuffers` and `updateGPUBuffersInterpolatingLines`, whose write offsets appear only as the layout lemma `Patch.BufferOffsets`;
  - the upload inside `interpolateInnerPoint` and after each curve move;
  - the empty key handlers;
  - the same members of the single-curve editor.
- The canvas shared pointer is a `Canvas` value. Its cast to the Ferguson canvas is taken to succeed.
- Hermite.HermiteCurveComputer.constructor: the start tangent index is computed from `resolution_` before that member is initialised, because of declaration order. The model leaves its value open; nothing in the core reads it.
- The header of the curve computer declares a constructor without the canvas and tangent-scale parameters, and no `st0()`/`st1()`. The model follows the implementation file: `St0`/`St1` are the tangents times `tangentScale`.
- Reference getters such as `p0()` returning `QPointF&` are read as plain field reads. Writing through them is the same as the matching setter.
- The single-curve editor's `render` draws its last two fans with `cp1_`'s segment count and draws 15 of the 16 points of each fan. Render is not modelled, so only the buffer layout is stated.
- The single-curve editor's `Circle` class (hermite_curve.cpp:237-262) is the same as `Handles` apart from the uninitialised flag recorded under Findings.
- The context files are not part of this model: the canvas, the window, the renderer's slots and the inner point control. Their only input to the core, the layout that the renderer builds, is stated as `Patch.FergusonPatch.ApplicationLayout`.

## Findings

| source | as written | input that shows it | evidently intended | confidence | as-written member | corrected member |
|---|---|---|---|---|---|---|
| hermite_curve.cpp:233-235 | the Circle constructor of the single-curve editor never initialises `selected_` (include/hermite_curve.hpp:43), so a new editor's handles start with indeterminate flags | a fresh editor whose `cp0` flag reads as set, then a mouse move to any point other than (-0.5, 0) before any press: p0 jumps to the pointer | every handle starts unselected, as the Circle constructor in src/ferguson_patch.cpp:9-11 does | high (not executed) | Legacy.StrayFlagMovesCurve | Legacy.FreshCurveIgnoresMoves |
