# Opus canvas engine in Dafny

A verified model of the canvas engine of the Opus drawing application. It has three parts:

- **The stroke document and its view transform** (`CanvasViewModel`). This covers committed strokes, the stroke in progress, the redo stack, and the zoom/pan transform with its clamped scale. Every operation is total: a call that does not apply to the current state is a no-op.
- **The vertex generator of the Metal renderer**. It turns a stroke snapshot into point-sprite vertices, sampling about one vertex per canvas unit along each segment. Each sample is interpolated in position and pressure, mapped canvas → view → clip space, and given a point size of at least one pixel.
- **The input routing of the canvas view**. Command-z and command-shift-z map to undo and redo. A scroll is meant to pan only for a trackpad gesture or under the hand tool; as written, the trackpad test is always true, so every scroll pans (see Findings). A pinch zooms and the result is clamped. The pressure falls back to 1 when the device reports none. Pointer input reaches the document only while the brush or the eraser is active.

Files and modules:

- `geometry.dfy` (`Geometry`): real 2-D vectors, the squared Euclidean length, and `FloorSqrt`, the integer part of a square root.
- `stroke_document.dfy` (`StrokeDocument`): the document state, its transitions as pure functions, and the lemmas that relate several transitions.
- `view_model.dfy` (`ViewModel`): the `CanvasViewModel` class. Its fields are updated in place, and each method is proved to perform exactly the matching `StrokeDocument` transition while keeping the invariant `Inv`: the scale lies in [0.1, 8.0] and every stroke has at least one point.
- `vertex_generator.dfy` (`VertexGenerator`): the segment and frame loops as methods, proved equal to specification functions, and the properties of those functions.
- `canvas_input.dfy` (`CanvasInput`): the routing decisions as functions, the `Coordinator` that forwards into the view model, and the `CanvasMTKView` event handlers.

Coordinates are exact reals. The source measures Euclidean lengths with `simd_length` in two places. The spacing filter `delta < 0.5` is modelled exactly as `squared length < 0.25`. The step count `Int(distance / 1.0)` is modelled as `FloorSqrt(squared length)`. The lemmas `ShorterThanIffLength` and `FloorSqrtIsFloorOfRoot` show that both agree with the real length `d`, for any `d >= 0` with `d*d` equal to the squared length.

Behaviour of the code worth noting:

- A stroke with one point is drawn as the segment from that point to itself. It yields two vertices at the same position, not one.
- `beginStroke` has no guard against being called while a stroke is in progress. It replaces that stroke.
- The canvas-to-view projection centres on half the **view** size (not the canvas size) and adds the translation **before** scaling. The view-to-canvas mapping `canvasPoint` is its exact inverse.
- There is no auto-fit: `setScale` only clamps, and `resetView` only restores the identity transform.

## Model

| member | source | states |
|---|---|---|
| `Geometry.ShorterThanIffLength` | Sources/OpusApp/Canvas/CanvasViewModel.swift:32-33 | comparing squared lengths decides `length < r` exactly, for the real length `d` |
| `Geometry.FloorSqrt` | Sources/OpusApp/Canvas/MetalCanvasRenderer.swift:130-131 | the result `n` is the natural with `n*n <= q < (n+1)*(n+1)` |
| `Geometry.FloorSqrtIsFloorOfRoot` | Sources/OpusApp/Canvas/MetalCanvasRenderer.swift:130-131 | for `d >= 0` with `d*d == q`, `FloorSqrt(q)` is `floor(d)`, i.e. `Int(distance / 1.0)` |
| `StrokeDocument.BeginStroke` | Sources/OpusApp/Canvas/CanvasViewModel.swift:15-26 | no change unless the tool is brush or eraser. Otherwise the current stroke is a new one-point stroke (background colour for the eraser, brush colour otherwise, brush size as base size), the redo stack is empty, and the committed strokes and the transform are unchanged |
| `StrokeDocument.ContinueStroke` | Sources/OpusApp/Canvas/CanvasViewModel.swift:28-37 | no change without a current stroke. Otherwise only that stroke's points change: they are unchanged when the new point is within 0.5 of the last one, and gain exactly that point otherwise. Strokes, redo stack and transform are untouched |
| `StrokeDocument.EndStroke` | Sources/OpusApp/Canvas/CanvasViewModel.swift:39-43 | the current stroke is appended at the tail of the committed strokes and cleared; no change without a current stroke |
| `StrokeDocument.CancelStroke` | Sources/OpusApp/Canvas/CanvasViewModel.swift:52-54 | the current stroke is discarded; committed strokes, redo stack and transform are unchanged |
| `StrokeDocument.Snapshot` | Sources/OpusApp/Canvas/CanvasViewModel.swift:45-50 | the committed strokes, followed by the current stroke exactly when one is in progress; in a reachable state every snapshot stroke has a point |
| `StrokeDocument.Undo` | Sources/OpusApp/Canvas/CanvasViewModel.swift:56-59 | moves the last committed stroke to the top of the redo stack; no-op when there are none; the total count is kept |
| `StrokeDocument.Redo` | Sources/OpusApp/Canvas/CanvasViewModel.swift:61-64 | moves the top of the redo stack to the tail of the committed strokes; no-op when empty; the total count is kept |
| `StrokeDocument.ClampScale` | Sources/OpusApp/Canvas/CanvasViewModel.swift:66-68 | the result lies in [0.1, 8.0]. It equals the request when the request is in range, and the nearer bound otherwise |
| `StrokeDocument.SetScale` | Sources/OpusApp/Canvas/CanvasViewModel.swift:66-68 | the scale becomes the clamped request; translation and document unchanged |
| `StrokeDocument.SetTranslation` | Sources/OpusApp/Canvas/CanvasViewModel.swift:70-72 | only the translation changes, to the given value |
| `StrokeDocument.Translate` | Sources/OpusApp/Canvas/CanvasViewModel.swift:74-76 | only the translation changes, by the delta componentwise |
| `StrokeDocument.ResetView` | Sources/OpusApp/Canvas/CanvasViewModel.swift:78-80 | the scale becomes 1 and the translation (0,0); the document is unchanged |
| `StrokeDocument.CanvasPoint` | Sources/OpusApp/Canvas/CanvasViewModel.swift:82-87 | under the identity transform a view point is its own canvas point, and the view centre maps to the canvas point at the centre minus the translation. `VertexGenerator.CanvasPointAfterProject` and `VertexGenerator.ProjectAfterCanvasPoint` show that it is the exact inverse of the renderer's projection |
| `StrokeDocument.ContinueSpacing` | Sources/OpusApp/Canvas/CanvasViewModel.swift:29-36 | with `d` the distance from the last point: below 0.5 nothing changes, at or above 0.5 exactly one point is appended |
| `StrokeDocument.EndKeepsSnapshot` | Sources/OpusApp/Canvas/CanvasViewModel.swift:39-50 | committing a stroke does not change the snapshot the renderer draws |
| `StrokeDocument.UndoAfterEnd` | Sources/OpusApp/Canvas/CanvasViewModel.swift:39-59 | end then undo restores the committed strokes and puts the ended stroke on top of the redo stack |
| `StrokeDocument.RedoAfterBeginIsNoOp` | Sources/OpusApp/Canvas/CanvasViewModel.swift:25 | after a stroke begins, redo does nothing |
| `StrokeDocument.RedoUndoInverse` | Sources/OpusApp/Canvas/CanvasViewModel.swift:56-64 | redo undoes undo when there is a stroke to undo, and undo undoes redo when there is a stroke to redo |
| `StrokeDocument.UndoTimes` | Sources/OpusApp/Canvas/CanvasViewModel.swift:56-59 | n undos, with n at most the stroke count, leave exactly the first `count - n` committed strokes |
| `StrokeDocument.UndoRedoRoundTrip` | Sources/OpusApp/Canvas/CanvasViewModel.swift:56-64 | n undos followed by n redos restore the whole state, committed strokes and redo stack included |
| `StrokeDocument.UndoRedoKeepTimeline` | Sources/OpusApp/Canvas/CanvasViewModel.swift:56-64 | committed strokes followed by the reversed redo stack is the same sequence before and after undo or redo, so relative order is never changed |
| `StrokeDocument.ContinueAll` | Sources/OpusApp/Canvas/CanvasViewModel.swift:28-37 | any number of continues leave strokes, redo stack and transform unchanged |
| `StrokeDocument.BeginContinueCancel` | Sources/OpusApp/Canvas/CanvasViewModel.swift:15-54 | begin, any continues, then cancel: committed strokes and transform as before, nothing in progress, redo stack cleared when the tool draws and unchanged otherwise |
| `StrokeDocument.TranslateComposes` | Sources/OpusApp/Canvas/CanvasViewModel.swift:74-76 | translating by `a` then by `b` equals translating by `a + b` |
| `StrokeDocument.ToolIdsDistinct` | Sources/OpusApp/Canvas/CanvasViewModel.swift:97-121 | `RawValue`, `Description` and `SystemImage` give each tool its id, label and image name, and distinct tools differ in all three |
| `ViewModel.CanvasViewModel.constructor` | Sources/OpusApp/Canvas/CanvasViewModel.swift:7-13 | no strokes, empty redo stack, nothing in progress, identity transform, brush tool |
| `ViewModel.CanvasViewModel.BeginStroke` | Sources/OpusApp/Canvas/CanvasViewModel.swift:15-26 | the fields afterwards are exactly `StrokeDocument.BeginStroke` of the fields before; the invariant is kept |
| `ViewModel.CanvasViewModel.ContinueStroke` | Sources/OpusApp/Canvas/CanvasViewModel.swift:28-37 | the fields afterwards are exactly `StrokeDocument.ContinueStroke` of the fields before |
| `ViewModel.CanvasViewModel.EndStroke` | Sources/OpusApp/Canvas/CanvasViewModel.swift:39-43 | the fields afterwards are exactly `StrokeDocument.EndStroke` of the fields before |
| `ViewModel.CanvasViewModel.SnapshotStrokes` | Sources/OpusApp/Canvas/CanvasViewModel.swift:45-50 | reads the fields without changing them and returns `StrokeDocument.Snapshot` of them |
| `ViewModel.CanvasViewModel.CancelStroke` | Sources/OpusApp/Canvas/CanvasViewModel.swift:52-54 | the fields afterwards are exactly `StrokeDocument.CancelStroke` of the fields before |
| `ViewModel.CanvasViewModel.Undo` | Sources/OpusApp/Canvas/CanvasViewModel.swift:56-59 | the fields afterwards are exactly `StrokeDocument.Undo` of the fields before |
| `ViewModel.CanvasViewModel.Redo` | Sources/OpusApp/Canvas/CanvasViewModel.swift:61-64 | the fields afterwards are exactly `StrokeDocument.Redo` of the fields before |
| `ViewModel.CanvasViewModel.SetScale` | Sources/OpusApp/Canvas/CanvasViewModel.swift:66-68 | the fields afterwards are exactly `StrokeDocument.SetScale` of the fields before |
| `ViewModel.CanvasViewModel.SetTranslation` | Sources/OpusApp/Canvas/CanvasViewModel.swift:70-72 | the fields afterwards are exactly `StrokeDocument.SetTranslation` of the fields before |
| `ViewModel.CanvasViewModel.Translate` | Sources/OpusApp/Canvas/CanvasViewModel.swift:74-76 | the fields afterwards are exactly `StrokeDocument.Translate` of the fields before |
| `ViewModel.CanvasViewModel.ResetView` | Sources/OpusApp/Canvas/CanvasViewModel.swift:78-80 | the fields afterwards are exactly `StrokeDocument.ResetView` of the fields before |
| `VertexGenerator.ProjectToView` | Sources/OpusApp/Canvas/MetalCanvasRenderer.swift:143-152 | the identity transform leaves a point where it is, and the canvas point at the view centre minus the translation lands on the view centre. `CanvasPointAfterProject` and `ProjectAfterCanvasPoint` show that it is the exact inverse of `CanvasPoint` |
| `VertexGenerator.ConvertToClipSpace` | Sources/OpusApp/Canvas/MetalCanvasRenderer.swift:154-158 | view (0,0) maps to clip (-1, 1) and view (w, h) to clip (1, -1) |
| `VertexGenerator.ClipSpaceBounds` | Sources/OpusApp/Canvas/MetalCanvasRenderer.swift:154-158 | every view point in [0,w]×[0,h] lands in [-1,1]² |
| `VertexGenerator.CanvasPointAfterProject` | Sources/OpusApp/Canvas/MetalCanvasRenderer.swift:143-152 | with a non-zero scale, `canvasPoint(projectToView(c)) == c` for the same view size and transform |
| `VertexGenerator.ProjectAfterCanvasPoint` | Sources/OpusApp/Canvas/CanvasViewModel.swift:82-87 | with a non-zero scale, `projectToView(canvasPoint(v)) == v` for the same view size and transform |
| `VertexGenerator.StepCount` | Sources/OpusApp/Canvas/MetalCanvasRenderer.swift:131 | a segment always has at least one step |
| `VertexGenerator.ParamBounds` | Sources/OpusApp/Canvas/MetalCanvasRenderer.swift:133 | the parameter `t` runs from 0 at step 0 to 1 at the last step, within [0, 1] |
| `VertexGenerator.PointSize` | Sources/OpusApp/Canvas/MetalCanvasRenderer.swift:138 | the point size is at least 1 and at least `baseSize * pressure * scale`, and is one of the two, i.e. exactly their maximum |
| `VertexGenerator.SegmentVertices` | Sources/OpusApp/Canvas/MetalCanvasRenderer.swift:128-140 | a segment has `StepCount + 1` vertices, each of size at least 1 and of the stroke's colour |
| `VertexGenerator.AppendSegment` | Sources/OpusApp/Canvas/MetalCanvasRenderer.swift:128-141 | the buffer afterwards is the buffer before followed by the segment's vertices; existing contents are kept |
| `VertexGenerator.AppendStroke` | Sources/OpusApp/Canvas/MetalCanvasRenderer.swift:101-111 | the buffer afterwards is the buffer before followed by the stroke's vertices: none without points, the self-segment for one point, the segments of the chain in order otherwise |
| `VertexGenerator.BuildVertices` | Sources/OpusApp/Canvas/MetalCanvasRenderer.swift:98-112 | the vertex buffer equals the frame's vertices: stroke by stroke, segment by segment |
| `VertexGenerator.SegmentVertexCount` | Sources/OpusApp/Canvas/MetalCanvasRenderer.swift:130-132 | a segment of Euclidean length `d` yields exactly `max(1, floor(d)) + 1` vertices |
| `VertexGenerator.TenUnitsGiveElevenVertices` | Sources/OpusApp/Canvas/MetalCanvasRenderer.swift:131-132 | two points 10 units apart give 11 vertices |
| `VertexGenerator.SampleEndpointsAndPressure` | Sources/OpusApp/Canvas/MetalCanvasRenderer.swift:133-135 | the first sample is at the start position and pressure and the last at the end ones; every sample's pressure lies between the endpoint pressures |
| `VertexGenerator.Interpolated` | Sources/OpusApp/Canvas/MetalCanvasRenderer.swift:135 | linear interpolation with `t` in [0,1] stays between its ends |
| `VertexGenerator.SegmentVertexSizes` | Sources/OpusApp/Canvas/MetalCanvasRenderer.swift:138-139 | each vertex's size is `max(1, baseSize * pressure * scale)` of its interpolated pressure, and its colour is the stroke's |
| `VertexGenerator.SinglePointStroke` | Sources/OpusApp/Canvas/MetalCanvasRenderer.swift:103-104 | a one-point stroke yields exactly two vertices, at the same position |
| `VertexGenerator.SamePointStepCount` | Sources/OpusApp/Canvas/MetalCanvasRenderer.swift:131 | a zero-length segment has exactly one step |
| `VertexGenerator.ChainVertexCount` | Sources/OpusApp/Canvas/MetalCanvasRenderer.swift:105-110 | a chain of n points yields the sum of its n−1 segment counts, at least 2(n−1) vertices |
| `VertexGenerator.StrokeVertexCount` | Sources/OpusApp/Canvas/MetalCanvasRenderer.swift:101-110 | a stroke yields no vertices exactly when it has no points, at least two otherwise, and the chain count when it has two or more points |
| `VertexGenerator.FrameVerticesAppend` | Sources/OpusApp/Canvas/MetalCanvasRenderer.swift:101-112 | the vertices of a concatenated snapshot are the concatenated vertices, so output follows snapshot order |
| `VertexGenerator.FrameVerticesSnoc` | Sources/OpusApp/Canvas/MetalCanvasRenderer.swift:101-112 | drawing one more stroke appends exactly that stroke's vertices after the frame's |
| `VertexGenerator.FrameVertexLowerBound` | Sources/OpusApp/Canvas/MetalCanvasRenderer.swift:101-112 | a frame of strokes that all have a point yields at least two vertices per stroke |
| `VertexGenerator.SnapshotIsDrawn` | Sources/OpusApp/Canvas/MetalCanvasRenderer.swift:97-112 | in every reachable document state each snapshot stroke, including the one in progress, contributes at least two vertices |
| `CanvasInput.KeyCommandFor` | Sources/OpusApp/Canvas/MetalCanvasView.swift:153-167 | undo exactly for "z" with command and without shift; redo exactly for "z" or "Z" with command and shift; anything else is passed on |
| `CanvasInput.NoCommandNoEdit` | Sources/OpusApp/Canvas/MetalCanvasView.swift:158-166 | without the command key every key is passed on |
| `CanvasInput.EventPressure` | Sources/OpusApp/Canvas/MetalCanvasView.swift:169-171 | the event's pressure when positive, 1 otherwise, so always positive |
| `CanvasInput.RouteScroll` | Sources/OpusApp/Canvas/MetalCanvasView.swift:136-145 | the intended routing: pans exactly for a trackpad gesture or the hand tool, by (dx, −dy); otherwise passes on |
| `CanvasInput.RouteScrollAsWritten` | Sources/OpusApp/Canvas/MetalCanvasView.swift:137-140 | the routing as written, with both `!= .none` tests compared against nil: every event pans by (dx, −dy), whatever the tool |
| `CanvasInput.ScrollRoutingDiscrepancy` | Sources/OpusApp/Canvas/MetalCanvasView.swift:137-144 | the written and the intended routing differ exactly on the events that are neither a trackpad gesture nor under the hand tool |
| `CanvasInput.PlainWheelUnderBrush` | Sources/OpusApp/Canvas/MetalCanvasView.swift:137-144 | a plain wheel notch (3, 4) under the brush pans by (3, −4) as written, and is passed on as intended |
| `CanvasInput.Pinch` | Sources/OpusApp/Canvas/MetalCanvasView.swift:81-84 | the scale becomes `clamp(scale * (1 + magnification))`, in [0.1, 8.0]; nothing else changes |
| `CanvasInput.PinchesStayInRange` | Sources/OpusApp/Canvas/MetalCanvasView.swift:147-151 | after any sequence of pinches the scale is in [0.1, 8.0] and only the scale has changed |
| `CanvasInput.ZeroPinchIsNoOp` | Sources/OpusApp/Canvas/MetalCanvasView.swift:147-151 | a pinch with magnification 0 leaves an in-range state unchanged |
| `CanvasInput.Coordinator.constructor` | Sources/OpusApp/Canvas/MetalCanvasView.swift:34-37 | holds the given view model and brush settings |
| `CanvasInput.Coordinator.BeginStroke` | Sources/OpusApp/Canvas/MetalCanvasView.swift:55-59 | nothing changes unless the tool is brush or eraser; otherwise the view model begins a stroke at `canvasPoint` of the view point |
| `CanvasInput.Coordinator.ContinueStroke` | Sources/OpusApp/Canvas/MetalCanvasView.swift:61-66 | nothing changes unless the tool is brush or eraser; otherwise the view model continues at `canvasPoint` of the view point |
| `CanvasInput.Coordinator.EndStroke` | Sources/OpusApp/Canvas/MetalCanvasView.swift:68-71 | the view model ends the stroke |
| `CanvasInput.Coordinator.CancelStroke` | Sources/OpusApp/Canvas/MetalCanvasView.swift:73-75 | the view model cancels the stroke |
| `CanvasInput.Coordinator.Translate` | Sources/OpusApp/Canvas/MetalCanvasView.swift:77-79 | the view model translates by the delta |
| `CanvasInput.Coordinator.Magnify` | Sources/OpusApp/Canvas/MetalCanvasView.swift:81-84 | the view model's scale becomes the clamped product of the old scale and the factor |
| `CanvasInput.Coordinator.Undo` | Sources/OpusApp/Canvas/MetalCanvasView.swift:90-93 | the view model undoes |
| `CanvasInput.Coordinator.Redo` | Sources/OpusApp/Canvas/MetalCanvasView.swift:95-98 | the view model redoes |
| `CanvasInput.CanvasMTKView.MouseDown` | Sources/OpusApp/Canvas/MetalCanvasView.swift:121-125 | begins a stroke at the event location with the fallback pressure, under the drawing-tool gate |
| `CanvasInput.CanvasMTKView.MouseDragged` | Sources/OpusApp/Canvas/MetalCanvasView.swift:127-130 | continues the stroke at the event location with the fallback pressure, under the drawing-tool gate |
| `CanvasInput.CanvasMTKView.MouseUp` | Sources/OpusApp/Canvas/MetalCanvasView.swift:132-134 | ends the stroke |
| `CanvasInput.CanvasMTKView.ScrollWheel` | Sources/OpusApp/Canvas/MetalCanvasView.swift:136-145 | follows the intended routing `RouteScroll`: translates by (dx, −dy) exactly for a trackpad gesture or the hand tool; otherwise the state is unchanged and the event is passed on (the code as written always pans; see Findings) |
| `CanvasInput.CanvasMTKView.MagnifyWith` | Sources/OpusApp/Canvas/MetalCanvasView.swift:147-151 | the state becomes `Pinch` of the old state by the event's magnification |
| `CanvasInput.CanvasMTKView.KeyDown` | Sources/OpusApp/Canvas/MetalCanvasView.swift:153-167 | undo, redo, or pass on, exactly as `KeyCommandFor` decides |

## Left out

- Floating point: coordinates, pressures and scales are exact reals. `Float`/`CGFloat` rounding, NaN, infinities, and the trap of `Int(distance / 1.0)` on a non-finite or huge distance are not modelled.
- `VertexGenerator.ConvertToClipSpace`: requires a non-zero view width and height. With IEEE floats the source then divides by zero and yields infinities; real division has no such value.
- `StrokeDocument.CanvasPoint`: requires a non-zero scale. In the model the scale is only ever set through `SetScale` and `ResetView`, which keep it in [0.1, 8.0]. The source's `transform` is publicly writable, and direct writes to it are not modelled.
- `StrokeDocument.ContinueSpacing`, `VertexGenerator.SegmentVertexCount`: the Euclidean length appears only through a `d` with `d >= 0` and `d*d` equal to the squared length. Dafny has no square root.
- `UUID()` identifiers and `CACurrentMediaTime()` timestamps are parameters, never inspected.
- `BrushSettings.simdColor` (the NSColor conversion) is not modelled. The brush reaches the document as an already converted RGBA colour and a size.
- All Metal work is left out as GPU calls: device, queue and pipeline creation, shader loading, clear colour, buffer creation, encoding, presenting. So are the renderer's early return when no drawable exists and its empty frame when there is no view model.
- `ObservableObject`/`@Published` notifications, the weak renderer and delegate references, `renderer?.viewModel = …` resynchronisation and `setRendererNeedsDisplay`, `DispatchQueue.main.async` in `Coordinator.configure`, `makeFirstResponder`, and `convert(_:from:)` of window coordinates are left out: they are UI and concurrency plumbing. The view's delegate is modelled as always present. Its tool provider is modelled as the one `makeNSView` installs, which answers the view model's active tool; the pure `RouteScroll` also covers a missing provider.
- `canvasSize`, `updateCanvasSize` and `fitCanvasToViewIfNeeded` are called by the application but defined in no file of this model, so there is no canvas size and no auto-fit.
- The SwiftUI views (`makeNSView`, `updateNSView` and the screens and panels of the application) hold no engine logic.
- `super.keyDown` and `super.scrollWheel` are modelled as a returned `passedOn` flag.
- `CanvasInput.CanvasMTKView.ScrollWheel`: follows the intended routing `RouteScroll`, not the always-panning `RouteScrollAsWritten`. A plain mouse wheel under a drawing tool is therefore passed on here, while the code as written pans it. The discrepancy is stated by `ScrollRoutingDiscrepancy` (see Findings).

## Findings

| source | as written | input that shows it | evidently intended | confidence | as-written member | corrected member |
|---|---|---|---|---|---|---|
| Sources/OpusApp/Canvas/MetalCanvasView.swift:137 | `event.phase != .none` and `event.momentumPhase != .none`: `NSEventPhaseNone` is zero, so Swift imports it as an unavailable option-set member, and `.none` resolves to `Optional<NSEvent.Phase>.none`. Both tests are always true, and `super.scrollWheel` at :143 is unreachable | a mouse-wheel event without precise deltas and with both phases empty, deltas (3, 4), brush tool: it pans by (3, −4) instead of being passed on | pan only for a trackpad gesture (precise deltas or a non-empty phase) or under the hand tool; compare with the empty set `[]` | medium; not executed, argued from how Swift imports zero-valued option-set members | `CanvasInput.RouteScrollAsWritten`, `CanvasInput.PlainWheelUnderBrush` | `CanvasInput.RouteScroll` |

