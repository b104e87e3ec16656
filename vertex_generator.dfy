/** The geometry half of the Metal renderer: turning a stroke snapshot into point-sprite
    vertices. Each segment between consecutive stroke points is sampled about once per canvas
    unit; every sample is interpolated in position and pressure, mapped canvas -> view -> clip
    space, and given a point size of at least one pixel. The GPU calls are not modelled. */
module VertexGenerator {
  import opened Geometry
  import opened StrokeDocument

  datatype StrokeVertex = StrokeVertex(position: Vec2, size: real, color: Color)

  /** A view that can be mapped to clip space: both sides are non-zero. */
  predicate ProperView(viewSize: Vec2) {
    viewSize.x != 0.0 && viewSize.y != 0.0
  }

  /** Canvas -> view: shift by half the view size, add the translation, scale, shift back. */
  function ProjectToView(canvas: Vec2, transform: CanvasTransform, viewSize: Vec2): (r: Vec2)
    ensures transform == Identity ==> r == canvas
    ensures canvas == Sub(Vec2(viewSize.x / 2.0, viewSize.y / 2.0), transform.translation) ==>
      r == Vec2(viewSize.x / 2.0, viewSize.y / 2.0)
  {
    var half := Vec2(viewSize.x / 2.0, viewSize.y / 2.0);
    var centered := Sub(canvas, half);
    var translated := Scale(Add(centered, transform.translation), transform.scale);
    Add(translated, half)
  }

  /** View -> clip: x from [0, w] onto [-1, 1], y from [0, h] onto [1, -1]. */
  function ConvertToClipSpace(viewPoint: Vec2, viewSize: Vec2): (r: Vec2)
    requires ProperView(viewSize)
    ensures viewPoint == Zero ==> r == Vec2(-1.0, 1.0)
    ensures viewPoint == viewSize ==> r == Vec2(1.0, -1.0)
  {
    Vec2((viewPoint.x / viewSize.x) * 2.0 - 1.0,
         ((viewSize.y - viewPoint.y) / viewSize.y) * 2.0 - 1.0)
  }

  /** A point of the view rectangle lands in the clip square. */
  lemma {:induction false} ClipSpaceBounds(viewPoint: Vec2, viewSize: Vec2)
    requires viewSize.x > 0.0 && viewSize.y > 0.0
    requires 0.0 <= viewPoint.x <= viewSize.x && 0.0 <= viewPoint.y <= viewSize.y
    ensures var c := ConvertToClipSpace(viewPoint, viewSize);
      -1.0 <= c.x <= 1.0 && -1.0 <= c.y <= 1.0
  {
    var w, h := viewSize.x, viewSize.y;
    assert 0.0 <= viewPoint.x / w <= 1.0 by {
      assert viewPoint.x / w * w == viewPoint.x;
    }
    assert 0.0 <= (h - viewPoint.y) / h <= 1.0 by {
      assert (h - viewPoint.y) / h * h == h - viewPoint.y;
    }
  }

  /** The view-to-canvas mapping of the view model undoes the projection ... */
  lemma {:induction false} CanvasPointAfterProject(canvas: Vec2, transform: CanvasTransform, viewSize: Vec2)
    requires transform.scale != 0.0
    ensures CanvasPoint(transform, ProjectToView(canvas, transform, viewSize), viewSize) == canvas
  {
    var s, t := transform.scale, transform.translation;
    var a := canvas.x - viewSize.x / 2.0 + t.x;
    var b := canvas.y - viewSize.y / 2.0 + t.y;
    assert a * s / s == a;
    assert b * s / s == b;
  }

  /** ... and the projection undoes it. */
  lemma {:induction false} ProjectAfterCanvasPoint(viewPoint: Vec2, transform: CanvasTransform, viewSize: Vec2)
    requires transform.scale != 0.0
    ensures ProjectToView(CanvasPoint(transform, viewPoint, viewSize), transform, viewSize) == viewPoint
  {
    var s := transform.scale;
    var a := viewPoint.x - viewSize.x / 2.0;
    var b := viewPoint.y - viewSize.y / 2.0;
    assert a / s * s == a;
    assert b / s * s == b;
  }

  /** Number of steps of a segment: the integer part of its length, but at least one. */
  function StepCount(start: StrokePoint, end: StrokePoint): (n: nat)
    ensures n >= 1
  {
    var distance := FloorSqrt(SquaredLength(Sub(end.position, start.position)));
    if distance >= 1 then distance else 1
  }

  /** The interpolation parameter of sample `step` out of `steps`. */
  function Param(step: nat, steps: nat): real {
    if steps == 0 then 0.0 else step as real / steps as real
  }

  lemma {:induction false} ParamBounds(step: nat, steps: nat)
    requires step <= steps
    ensures 0.0 <= Param(step, steps) <= 1.0
    ensures step == 0 ==> Param(step, steps) == 0.0
    ensures steps > 0 && step == steps ==> Param(step, steps) == 1.0
  {
    if steps > 0 {
      assert step as real / steps as real * steps as real == step as real;
    }
  }

  /** The canvas position of the sample at parameter `t`. */
  function SamplePosition(start: StrokePoint, end: StrokePoint, t: real): Vec2 {
    Add(start.position, Scale(Sub(end.position, start.position), t))
  }

  /** The pressure of the sample at parameter `t`. */
  function SamplePressure(start: StrokePoint, end: StrokePoint, t: real): real {
    start.pressure + (end.pressure - start.pressure) * t
  }

  function PointSize(baseSize: real, pressure: real, scale: real): (r: real)
    ensures r >= 1.0 && r >= (baseSize * pressure) * scale
    ensures r == 1.0 || r == baseSize * pressure * scale
  {
    Max(1.0, (baseSize * pressure) * scale)
  }

  function VertexAt(start: StrokePoint, end: StrokePoint, baseSize: real, color: Color,
                    transform: CanvasTransform, viewSize: Vec2, step: nat, steps: nat): StrokeVertex
    requires ProperView(viewSize)
  {
    var t := Param(step, steps);
    var viewPoint := ProjectToView(SamplePosition(start, end, t), transform, viewSize);
    StrokeVertex(ConvertToClipSpace(viewPoint, viewSize),
                 PointSize(baseSize, SamplePressure(start, end, t), transform.scale),
                 color)
  }

  /** The vertices of one segment, samples 0 to StepCount inclusive. */
  function SegmentVertices(start: StrokePoint, end: StrokePoint, baseSize: real, color: Color,
                           transform: CanvasTransform, viewSize: Vec2): (r: seq<StrokeVertex>)
    requires ProperView(viewSize)
    ensures |r| == StepCount(start, end) + 1
    ensures forall k :: 0 <= k < |r| ==> r[k].size >= 1.0 && r[k].color == color
  {
    var steps := StepCount(start, end);
    seq(steps + 1, k requires 0 <= k <= steps =>
      VertexAt(start, end, baseSize, color, transform, viewSize, k, steps))
  }

  /** The vertices of a chain of points: one segment per consecutive pair, in order. */
  function ChainVertices(points: seq<StrokePoint>, baseSize: real, color: Color,
                         transform: CanvasTransform, viewSize: Vec2): seq<StrokeVertex>
    requires ProperView(viewSize)
  {
    if |points| < 2 then []
    else
      var n := |points|;
      ChainVertices(points[..n - 1], baseSize, color, transform, viewSize) +
      SegmentVertices(points[n - 2], points[n - 1], baseSize, color, transform, viewSize)
  }

  /** The vertices of one stroke. A stroke of one point is drawn as the segment from that point
      to itself; a stroke without points draws nothing. */
  function StrokeVertices(stroke: Stroke, transform: CanvasTransform, viewSize: Vec2): seq<StrokeVertex>
    requires ProperView(viewSize)
  {
    var points := stroke.points;
    if |points| == 0 then []
    else if |points| == 1 then
      SegmentVertices(points[0], points[0], stroke.baseSize, stroke.color, transform, viewSize)
    else
      ChainVertices(points, stroke.baseSize, stroke.color, transform, viewSize)
  }

  /** The vertices of a frame: stroke after stroke, in snapshot order. */
  function FrameVertices(strokes: seq<Stroke>, transform: CanvasTransform, viewSize: Vec2): seq<StrokeVertex>
    requires ProperView(viewSize)
  {
    if strokes == [] then []
    else StrokeVertices(strokes[0], transform, viewSize) + FrameVertices(strokes[1..], transform, viewSize)
  }

  // ---------------------------------------------------------------------------------------
  // The generating loops

  /** Appends the samples of the segment from `start` to `end` to `buffer`. */
  method AppendSegment(start: StrokePoint, end: StrokePoint, baseSize: real, color: Color,
                       transform: CanvasTransform, viewSize: Vec2, buffer: seq<StrokeVertex>)
    returns (result: seq<StrokeVertex>)
    requires ProperView(viewSize)
    ensures result == buffer + SegmentVertices(start, end, baseSize, color, transform, viewSize)
  {
    var steps := StepCount(start, end);
    ghost var segment := SegmentVertices(start, end, baseSize, color, transform, viewSize);
    result := buffer;
    for step := 0 to steps + 1
      invariant result == buffer + segment[..step]
    {
      var t := Param(step, steps);
      var canvasPosition := SamplePosition(start, end, t);
      var pressure := SamplePressure(start, end, t);
      var viewPoint := ProjectToView(canvasPosition, transform, viewSize);
      var clipPosition := ConvertToClipSpace(viewPoint, viewSize);
      var size := PointSize(baseSize, pressure, transform.scale);
      result := result + [StrokeVertex(clipPosition, size, color)];
      assert segment[..step + 1] == segment[..step] + [segment[step]];
    }
    assert segment[..steps + 1] == segment;
  }

  /** Appends the vertices of one stroke to `buffer`: its single point drawn as a segment to
      itself, or each segment of its chain in order. */
  method AppendStroke(stroke: Stroke, transform: CanvasTransform, viewSize: Vec2, buffer: seq<StrokeVertex>)
    returns (result: seq<StrokeVertex>)
    requires ProperView(viewSize)
    ensures result == buffer + StrokeVertices(stroke, transform, viewSize)
  {
    result := buffer;
    if |stroke.points| == 0 {
      return;
    }
    var firstPoint := stroke.points[0];
    if |stroke.points| == 1 {
      result := AppendSegment(firstPoint, firstPoint, stroke.baseSize, stroke.color, transform, viewSize, result);
      return;
    }
    var previousPoint := firstPoint;
    for j := 1 to |stroke.points|
      invariant previousPoint == stroke.points[j - 1]
      invariant result == buffer + ChainVertices(stroke.points[..j], stroke.baseSize, stroke.color, transform, viewSize)
    {
      var point := stroke.points[j];
      assert stroke.points[..j + 1][..j] == stroke.points[..j];
      result := AppendSegment(previousPoint, point, stroke.baseSize, stroke.color, transform, viewSize, result);
      previousPoint := point;
    }
    assert stroke.points[..|stroke.points|] == stroke.points;
  }

  /** The vertex buffer of one frame, built stroke by stroke in snapshot order. */
  method BuildVertices(strokes: seq<Stroke>, transform: CanvasTransform, viewSize: Vec2)
    returns (vertices: seq<StrokeVertex>)
    requires ProperView(viewSize)
    ensures vertices == FrameVertices(strokes, transform, viewSize)
  {
    vertices := [];
    for i := 0 to |strokes|
      invariant vertices == FrameVertices(strokes[..i], transform, viewSize)
    {
      assert strokes[..i + 1] == strokes[..i] + [strokes[i]];
      FrameVerticesSnoc(strokes[..i], strokes[i], transform, viewSize);
      vertices := AppendStroke(strokes[i], transform, viewSize, vertices);
    }
    assert strokes[..|strokes|] == strokes;
  }

  // ---------------------------------------------------------------------------------------
  // Properties of the generated geometry

  /** A segment of Euclidean length `d` yields max(1, floor(d)) + 1 vertices. */
  lemma {:induction false} SegmentVertexCount(start: StrokePoint, end: StrokePoint, baseSize: real, color: Color,
                                              transform: CanvasTransform, viewSize: Vec2, d: real)
    requires ProperView(viewSize)
    requires IsLength(Sub(end.position, start.position), d)
    ensures |SegmentVertices(start, end, baseSize, color, transform, viewSize)| ==
      (if d.Floor >= 1 then d.Floor else 1) + 1
  {
    FloorSqrtIsFloorOfRoot(SquaredLength(Sub(end.position, start.position)), d);
  }

  /** Two points ten canvas units apart give eleven vertices. */
  lemma {:induction false} TenUnitsGiveElevenVertices(start: StrokePoint, end: StrokePoint, baseSize: real, color: Color,
                                                      transform: CanvasTransform, viewSize: Vec2)
    requires ProperView(viewSize)
    requires IsLength(Sub(end.position, start.position), 10.0)
    ensures |SegmentVertices(start, end, baseSize, color, transform, viewSize)| == 11
  {
    SegmentVertexCount(start, end, baseSize, color, transform, viewSize, 10.0);
  }

  /** The first sample sits at the start of the segment, the last at its end, and every
      sample's pressure lies between the two endpoint pressures. */
  lemma {:induction false} SampleEndpointsAndPressure(start: StrokePoint, end: StrokePoint, step: nat)
    requires step <= StepCount(start, end)
    ensures SamplePosition(start, end, Param(0, StepCount(start, end))) == start.position
    ensures SamplePressure(start, end, Param(0, StepCount(start, end))) == start.pressure
    ensures SamplePosition(start, end, Param(StepCount(start, end), StepCount(start, end))) == end.position
    ensures SamplePressure(start, end, Param(StepCount(start, end), StepCount(start, end))) == end.pressure
    ensures var p := SamplePressure(start, end, Param(step, StepCount(start, end)));
      Min(start.pressure, end.pressure) <= p <= Max(start.pressure, end.pressure)
  {
    var steps := StepCount(start, end);
    ParamBounds(0, steps);
    ParamBounds(steps, steps);
    ParamBounds(step, steps);
    Interpolated(start.pressure, end.pressure, Param(step, steps));
  }

  /** A linear interpolation at a parameter in [0, 1] lies between its two ends. */
  lemma Interpolated(a: real, b: real, t: real)
    requires 0.0 <= t <= 1.0
    ensures Min(a, b) <= a + (b - a) * t <= Max(a, b)
  {
    var d, u := b - a, 1.0 - t;
    assert d * t + d * u == d;
    if a <= b {
      MulNonNegative(d, t);
      MulNonNegative(d, u);
    } else {
      MulNonNegative(-d, t);
      MulNonNegative(-d, u);
    }
  }

  lemma MulNonNegative(x: real, y: real)
    requires x >= 0.0 && y >= 0.0
    ensures x * y >= 0.0
  {
  }

  /** Every vertex of a segment has the size max(1, baseSize * pressure * scale) of its
      interpolated pressure, and the stroke's colour. */
  lemma {:induction false} SegmentVertexSizes(start: StrokePoint, end: StrokePoint, baseSize: real, color: Color,
                                              transform: CanvasTransform, viewSize: Vec2, k: nat)
    requires ProperView(viewSize)
    requires k <= StepCount(start, end)
    ensures var v := SegmentVertices(start, end, baseSize, color, transform, viewSize)[k];
      var p := SamplePressure(start, end, Param(k, StepCount(start, end)));
      v.size == Max(1.0, baseSize * p * transform.scale) && v.size >= 1.0 && v.color == color
  {
  }

  /** A one-point stroke is drawn as two vertices at the same position. */
  lemma {:induction false} SinglePointStroke(stroke: Stroke, transform: CanvasTransform, viewSize: Vec2)
    requires ProperView(viewSize)
    requires |stroke.points| == 1
    ensures var vs := StrokeVertices(stroke, transform, viewSize);
      |vs| == 2 && vs[0].position == vs[1].position
  {
    var p := stroke.points[0];
    SamePointStepCount(p);
    var vs := SegmentVertices(p, p, stroke.baseSize, stroke.color, transform, viewSize);
    var c := ConvertToClipSpace(ProjectToView(p.position, transform, viewSize), viewSize);
    SampleAtSamePoint(p, Param(0, 1));
    SampleAtSamePoint(p, Param(1, 1));
    assert vs[0].position == c;
    assert vs[1].position == c;
  }

  /** The segment from a point to itself has one step. */
  lemma SamePointStepCount(p: StrokePoint)
    ensures StepCount(p, p) == 1
  {
    SubSelf(p.position);
    ZeroRoot();
  }

  lemma SubSelf(a: Vec2)
    ensures Sub(a, a) == Zero
  {
  }

  lemma ZeroRoot()
    ensures FloorSqrt(SquaredLength(Zero)) == 0
  {
    FloorSqrtUnique(0.0, 0);
  }

  /** Every sample of the segment from a point to itself is that point. */
  lemma SampleAtSamePoint(p: StrokePoint, t: real)
    ensures SamplePosition(p, p, t) == p.position
  {
    SubSelf(p.position);
    assert Scale(Zero, t) == Zero;
  }

  /** Vertex count of a chain: the sum over its consecutive pairs of the segment counts. */
  function ChainCount(points: seq<StrokePoint>): nat {
    if |points| < 2 then 0
    else
      var n := |points|;
      ChainCount(points[..n - 1]) + StepCount(points[n - 2], points[n - 1]) + 1
  }

  lemma {:induction false} ChainVertexCount(points: seq<StrokePoint>, baseSize: real, color: Color,
                                            transform: CanvasTransform, viewSize: Vec2)
    requires ProperView(viewSize)
    ensures |ChainVertices(points, baseSize, color, transform, viewSize)| == ChainCount(points)
    ensures ChainCount(points) >= 2 * (|points| - 1)
  {
    if |points| >= 2 {
      ChainVertexCount(points[..|points| - 1], baseSize, color, transform, viewSize);
    }
  }

  /** A stroke with at least one point yields at least two vertices; one without yields none. */
  lemma {:induction false} StrokeVertexCount(stroke: Stroke, transform: CanvasTransform, viewSize: Vec2)
    requires ProperView(viewSize)
    ensures stroke.points == [] <==> StrokeVertices(stroke, transform, viewSize) == []
    ensures stroke.points != [] ==> |StrokeVertices(stroke, transform, viewSize)| >= 2
    ensures |stroke.points| >= 2 ==> |StrokeVertices(stroke, transform, viewSize)| == ChainCount(stroke.points)
  {
    if |stroke.points| >= 2 {
      ChainVertexCount(stroke.points, stroke.baseSize, stroke.color, transform, viewSize);
    }
  }

  /** Vertices follow snapshot order: the frame of a concatenation is the concatenation of the
      frames. */
  lemma {:induction false} FrameVerticesAppend(a: seq<Stroke>, b: seq<Stroke>, transform: CanvasTransform, viewSize: Vec2)
    requires ProperView(viewSize)
    ensures FrameVertices(a + b, transform, viewSize) ==
      FrameVertices(a, transform, viewSize) + FrameVertices(b, transform, viewSize)
  {
    if a == [] {
      assert a + b == b;
    } else {
      assert (a + b)[0] == a[0];
      assert (a + b)[1..] == a[1..] + b;
      FrameVerticesAppend(a[1..], b, transform, viewSize);
    }
  }

  /** Drawing one more stroke appends its vertices to the frame's. */
  lemma {:induction false} FrameVerticesSnoc(a: seq<Stroke>, x: Stroke, transform: CanvasTransform, viewSize: Vec2)
    requires ProperView(viewSize)
    ensures FrameVertices(a + [x], transform, viewSize) ==
      FrameVertices(a, transform, viewSize) + StrokeVertices(x, transform, viewSize)
  {
    FrameVerticesAppend(a, [x], transform, viewSize);
    assert [x][1..] == [];
  }

  /** Every stroke of a frame whose strokes all have a point contributes at least two vertices. */
  lemma {:induction false} FrameVertexLowerBound(strokes: seq<Stroke>, transform: CanvasTransform, viewSize: Vec2)
    requires ProperView(viewSize)
    requires AllDrawable(strokes)
    ensures |FrameVertices(strokes, transform, viewSize)| >= 2 * |strokes|
  {
    if strokes != [] {
      assert AllDrawable(strokes[1..]);
      FrameVertexLowerBound(strokes[1..], transform, viewSize);
      StrokeVertexCount(strokes[0], transform, viewSize);
    }
  }

  /** What the document hands the renderer in any reachable state draws every one of its
      strokes, committed ones and the one in progress alike. */
  lemma {:induction false} SnapshotIsDrawn(s: DocState, viewSize: Vec2)
    requires ProperView(viewSize)
    requires Inv(s)
    ensures |FrameVertices(Snapshot(s), s.transform, viewSize)| >= 2 * |Snapshot(s)|
  {
    FrameVertexLowerBound(Snapshot(s), s.transform, viewSize);
  }
}
