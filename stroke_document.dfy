/** The stroke document and the view transform of the canvas, as pure transitions over a
    document state. Each transition is total: a call that does not apply to the current state
    returns the state unchanged. The view model class (module ViewModel) performs exactly these
    transitions on its fields. */
module StrokeDocument {
  import opened Geometry

  datatype Option<T> = None | Some(value: T)

  datatype Tool = Brush | Eraser | ColorPicker | Hand

  /** The tool's raw value, which is also its identity in tool lists. */
  function RawValue(t: Tool): string {
    match t
    case Brush => "brush"
    case Eraser => "eraser"
    case ColorPicker => "colorPicker"
    case Hand => "hand"
  }

  function SystemImage(t: Tool): string {
    match t
    case Brush => "pencil.tip"
    case Eraser => "eraser"
    case ColorPicker => "eyedropper"
    case Hand => "hand.draw"
  }

  function Description(t: Tool): string {
    match t
    case Brush => "Brush"
    case Eraser => "Eraser"
    case ColorPicker => "Color Pick"
    case Hand => "Pan"
  }

  /** Only the brush and the eraser put strokes into the document. */
  predicate Draws(t: Tool) {
    t == Brush || t == Eraser
  }

  /** A stroke identifier; the engine only ever compares it for equality. */
  type StrokeId = nat

  datatype StrokePoint = StrokePoint(position: Vec2, pressure: real, timestamp: real)

  datatype Stroke = Stroke(id: StrokeId, points: seq<StrokePoint>, color: Color, baseSize: real)

  /** The brush as the document sees it: the colour already converted to RGBA, and the size. */
  datatype BrushSettings = BrushSettings(color: Color, size: real)

  datatype CanvasTransform = CanvasTransform(scale: real, translation: Vec2)

  const Identity: CanvasTransform := CanvasTransform(1.0, Zero)
  const BackgroundColor: Color := Color(0.96, 0.96, 0.98, 1.0)
  const MinScale: real := 0.1
  const MaxScale: real := 8.0
  /** A new point closer than this to the last one is dropped. */
  const MinPointSpacing: real := 0.5

  datatype DocState = DocState(
    strokes: seq<Stroke>,
    redoStack: seq<Stroke>,
    currentStroke: Option<Stroke>,
    transform: CanvasTransform)

  const Initial: DocState := DocState([], [], None, Identity)

  predicate AllDrawable(ss: seq<Stroke>) {
    forall k :: 0 <= k < |ss| ==> ss[k].points != []
  }

  /** What every reachable state satisfies: the scale lies in its range and every stroke,
      committed, undone or in progress, has at least one point. */
  predicate Inv(s: DocState) {
    MinScale <= s.transform.scale <= MaxScale &&
    AllDrawable(s.strokes) && AllDrawable(s.redoStack) &&
    (s.currentStroke.Some? ==> s.currentStroke.value.points != [])
  }

  function Last<T>(s: seq<T>): T
    requires s != []
  {
    s[|s| - 1]
  }

  // ---------------------------------------------------------------------------------------
  // Stroke lifecycle

  function BeginStroke(s: DocState, tool: Tool, location: Vec2, pressure: real,
                       brush: BrushSettings, id: StrokeId, timestamp: real): (r: DocState)
    ensures !Draws(tool) ==> r == s
    ensures Draws(tool) ==>
      r.strokes == s.strokes && r.transform == s.transform && r.redoStack == [] &&
      r.currentStroke.Some? &&
      r.currentStroke.value.points == [StrokePoint(location, pressure, timestamp)] &&
      r.currentStroke.value.color == (if tool == Eraser then BackgroundColor else brush.color) &&
      r.currentStroke.value.baseSize == brush.size &&
      r.currentStroke.value.id == id
    ensures Inv(s) ==> Inv(r)
  {
    if !Draws(tool) then s
    else
      var color := if tool == Eraser then BackgroundColor else brush.color;
      var point := StrokePoint(location, pressure, timestamp);
      s.(currentStroke := Some(Stroke(id, [point], color, brush.size)), redoStack := [])
  }

  /** The spacing filter: the new location lies within MinPointSpacing of the last point. */
  predicate TooCloseToLast(points: seq<StrokePoint>, location: Vec2) {
    points != [] && ShorterThan(Sub(Last(points).position, location), MinPointSpacing)
  }

  function ContinueStroke(s: DocState, location: Vec2, pressure: real, timestamp: real): (r: DocState)
    ensures s.currentStroke.None? ==> r == s
    ensures r.strokes == s.strokes && r.redoStack == s.redoStack && r.transform == s.transform
    ensures s.currentStroke.Some? ==>
      var stroke := s.currentStroke.value;
      r.currentStroke.Some? &&
      r.currentStroke.value == stroke.(points := r.currentStroke.value.points) &&
      r.currentStroke.value.points ==
        if TooCloseToLast(stroke.points, location) then stroke.points
        else stroke.points + [StrokePoint(location, pressure, timestamp)]
    ensures Inv(s) ==> Inv(r)
  {
    match s.currentStroke
    case None => s
    case Some(stroke) =>
      if TooCloseToLast(stroke.points, location) then s
      else
        var point := StrokePoint(location, pressure, timestamp);
        s.(currentStroke := Some(stroke.(points := stroke.points + [point])))
  }

  function EndStroke(s: DocState): (r: DocState)
    ensures s.currentStroke.None? ==> r == s
    ensures s.currentStroke.Some? ==>
      r.strokes == s.strokes + [s.currentStroke.value] && r.currentStroke.None? &&
      r.redoStack == s.redoStack && r.transform == s.transform
    ensures Inv(s) ==> Inv(r)
  {
    match s.currentStroke
    case None => s
    case Some(stroke) => s.(strokes := s.strokes + [stroke], currentStroke := None)
  }

  function CancelStroke(s: DocState): (r: DocState)
    ensures r.currentStroke.None?
    ensures r.strokes == s.strokes && r.redoStack == s.redoStack && r.transform == s.transform
    ensures Inv(s) ==> Inv(r)
  {
    s.(currentStroke := None)
  }

  /** What the renderer draws: the committed strokes, then the stroke in progress if any. */
  function Snapshot(s: DocState): (r: seq<Stroke>)
    ensures |r| == |s.strokes| + (if s.currentStroke.Some? then 1 else 0)
    ensures r[..|s.strokes|] == s.strokes
    ensures s.currentStroke.Some? ==> r[|s.strokes|] == s.currentStroke.value
    ensures Inv(s) ==> AllDrawable(r)
  {
    match s.currentStroke
    case Some(stroke) => s.strokes + [stroke]
    case None => s.strokes
  }

  // ---------------------------------------------------------------------------------------
  // Undo and redo

  function Undo(s: DocState): (r: DocState)
    ensures s.strokes == [] ==> r == s
    ensures s.strokes != [] ==>
      r.strokes == s.strokes[..|s.strokes| - 1] && r.redoStack == s.redoStack + [Last(s.strokes)]
    ensures r.currentStroke == s.currentStroke && r.transform == s.transform
    ensures |r.strokes| + |r.redoStack| == |s.strokes| + |s.redoStack|
    ensures Inv(s) ==> Inv(r)
  {
    if s.strokes == [] then s
    else s.(strokes := s.strokes[..|s.strokes| - 1], redoStack := s.redoStack + [Last(s.strokes)])
  }

  function Redo(s: DocState): (r: DocState)
    ensures s.redoStack == [] ==> r == s
    ensures s.redoStack != [] ==>
      r.redoStack == s.redoStack[..|s.redoStack| - 1] && r.strokes == s.strokes + [Last(s.redoStack)]
    ensures r.currentStroke == s.currentStroke && r.transform == s.transform
    ensures |r.strokes| + |r.redoStack| == |s.strokes| + |s.redoStack|
    ensures Inv(s) ==> Inv(r)
  {
    if s.redoStack == [] then s
    else s.(redoStack := s.redoStack[..|s.redoStack| - 1], strokes := s.strokes + [Last(s.redoStack)])
  }

  // ---------------------------------------------------------------------------------------
  // The view transform

  /** The scale a request for `scale` ends up as. */
  function ClampScale(scale: real): (r: real)
    ensures MinScale <= r <= MaxScale
    ensures MinScale <= scale <= MaxScale ==> r == scale
    ensures scale < MinScale ==> r == MinScale
    ensures scale > MaxScale ==> r == MaxScale
  {
    Max(MinScale, Min(scale, MaxScale))
  }

  function SetScale(s: DocState, scale: real): (r: DocState)
    ensures MinScale <= r.transform.scale <= MaxScale
    ensures r.transform.scale == ClampScale(scale)
    ensures r.transform.translation == s.transform.translation
    ensures r.strokes == s.strokes && r.redoStack == s.redoStack && r.currentStroke == s.currentStroke
    ensures Inv(s) ==> Inv(r)
  {
    s.(transform := s.transform.(scale := ClampScale(scale)))
  }

  function SetTranslation(s: DocState, translation: Vec2): (r: DocState)
    ensures r.transform == CanvasTransform(s.transform.scale, translation)
    ensures r.strokes == s.strokes && r.redoStack == s.redoStack && r.currentStroke == s.currentStroke
    ensures Inv(s) ==> Inv(r)
  {
    s.(transform := s.transform.(translation := translation))
  }

  function Translate(s: DocState, delta: Vec2): (r: DocState)
    ensures r.transform.scale == s.transform.scale
    ensures r.transform.translation.x == s.transform.translation.x + delta.x
    ensures r.transform.translation.y == s.transform.translation.y + delta.y
    ensures r.strokes == s.strokes && r.redoStack == s.redoStack && r.currentStroke == s.currentStroke
    ensures Inv(s) ==> Inv(r)
  {
    s.(transform := s.transform.(translation := Add(s.transform.translation, delta)))
  }

  function ResetView(s: DocState): (r: DocState)
    ensures r.transform.scale == 1.0 && r.transform.translation == Zero
    ensures r.strokes == s.strokes && r.redoStack == s.redoStack && r.currentStroke == s.currentStroke
    ensures Inv(s) ==> Inv(r)
  {
    s.(transform := Identity)
  }

  /** The view-to-canvas mapping: undoes the shift to the view's centre, the scale and the
      translation, in that order, and shifts back by half the view size. */
  function CanvasPoint(t: CanvasTransform, viewPoint: Vec2, viewSize: Vec2): (r: Vec2)
    requires t.scale != 0.0
    ensures t == Identity ==> r == viewPoint
    ensures viewPoint == Vec2(viewSize.x / 2.0, viewSize.y / 2.0) ==>
      r == Sub(viewPoint, t.translation)
  {
    Vec2((viewPoint.x - viewSize.x / 2.0) / t.scale - t.translation.x + viewSize.x / 2.0,
         (viewPoint.y - viewSize.y / 2.0) / t.scale - t.translation.y + viewSize.y / 2.0)
  }

  // ---------------------------------------------------------------------------------------
  // Properties relating several transitions

  /** The spacing filter in terms of the Euclidean distance `d` between the last recorded
      point and the new one: below 0.5 nothing changes, otherwise exactly one point is added. */
  lemma {:induction false} ContinueSpacing(s: DocState, location: Vec2, pressure: real, timestamp: real, d: real)
    requires s.currentStroke.Some? && s.currentStroke.value.points != []
    requires IsLength(Sub(Last(s.currentStroke.value.points).position, location), d)
    ensures d < MinPointSpacing ==> ContinueStroke(s, location, pressure, timestamp) == s
    ensures d >= MinPointSpacing ==>
      ContinueStroke(s, location, pressure, timestamp).currentStroke.value.points ==
        s.currentStroke.value.points + [StrokePoint(location, pressure, timestamp)]
  {
    ShorterThanIffLength(Sub(Last(s.currentStroke.value.points).position, location), d, MinPointSpacing);
  }

  /** Ending a stroke changes what it is, committed rather than in progress, but not what is drawn. */
  lemma {:induction false} EndKeepsSnapshot(s: DocState)
    ensures Snapshot(EndStroke(s)) == Snapshot(s)
  {
  }

  /** Undo right after committing a stroke takes back exactly that stroke. */
  lemma {:induction false} UndoAfterEnd(s: DocState)
    requires s.currentStroke.Some?
    ensures Undo(EndStroke(s)).strokes == s.strokes
    ensures Undo(EndStroke(s)).redoStack == s.redoStack + [s.currentStroke.value]
  {
    assert (s.strokes + [s.currentStroke.value])[..|s.strokes|] == s.strokes;
  }

  /** After a stroke begins the redo stack is empty, so redo does nothing until the next undo. */
  lemma {:induction false} RedoAfterBeginIsNoOp(s: DocState, tool: Tool, location: Vec2, pressure: real,
                                                brush: BrushSettings, id: StrokeId, timestamp: real)
    requires Draws(tool)
    ensures var b := BeginStroke(s, tool, location, pressure, brush, id, timestamp); Redo(b) == b
  {
  }

  lemma {:induction false} RedoUndoInverse(s: DocState)
    ensures s.strokes != [] ==> Redo(Undo(s)) == s
    ensures s.redoStack != [] ==> Undo(Redo(s)) == s
  {
    if s.strokes != [] {
      assert s.strokes[..|s.strokes| - 1] + [Last(s.strokes)] == s.strokes;
    }
    if s.redoStack != [] {
      assert s.redoStack[..|s.redoStack| - 1] + [Last(s.redoStack)] == s.redoStack;
    }
  }

  function UndoTimes(s: DocState, n: nat): (r: DocState)
    ensures n <= |s.strokes| ==> r.strokes == s.strokes[..|s.strokes| - n]
    ensures r.currentStroke == s.currentStroke && r.transform == s.transform
  {
    if n == 0 then s else Undo(UndoTimes(s, n - 1))
  }

  function RedoTimes(s: DocState, n: nat): DocState
    decreases n
  {
    if n == 0 then s else RedoTimes(Redo(s), n - 1)
  }

  /** n undos followed by n redos restore the committed strokes, and the redo stack, exactly. */
  lemma {:induction false} UndoRedoRoundTrip(s: DocState, n: nat)
    requires n <= |s.strokes|
    ensures RedoTimes(UndoTimes(s, n), n) == s
  {
    if n > 0 {
      var u := UndoTimes(s, n - 1);
      assert u.strokes != [];
      RedoUndoInverse(u);
      UndoRedoRoundTrip(s, n - 1);
    }
  }

  function Reversed<T>(s: seq<T>): (r: seq<T>)
    ensures |r| == |s|
  {
    if s == [] then [] else [Last(s)] + Reversed(s[..|s| - 1])
  }

  /** The whole history in drawing order: the committed strokes, then the undone ones from the
      least recently undone to the most recently undone. */
  function Timeline(s: DocState): seq<Stroke> {
    s.strokes + Reversed(s.redoStack)
  }

  /** Undo and redo only move the boundary between committed and undone strokes: the history
      itself, its order included, never changes. */
  lemma {:induction false} UndoRedoKeepTimeline(s: DocState)
    ensures Timeline(Undo(s)) == Timeline(s)
    ensures Timeline(Redo(s)) == Timeline(s)
  {
    if s.strokes != [] {
      var x, rest := Last(s.strokes), s.strokes[..|s.strokes| - 1];
      assert (s.redoStack + [x])[..|s.redoStack|] == s.redoStack;
      assert Reversed(s.redoStack + [x]) == [x] + Reversed(s.redoStack);
      assert rest + [x] == s.strokes;
    }
    if s.redoStack != [] {
      var x, rest := Last(s.redoStack), s.redoStack[..|s.redoStack| - 1];
      assert Reversed(s.redoStack) == [x] + Reversed(rest);
    }
  }

  /** The pointer input of one drag event, already in canvas space. */
  datatype PointInput = PointInput(location: Vec2, pressure: real, timestamp: real)

  function ContinueAll(s: DocState, inputs: seq<PointInput>): (r: DocState)
    ensures r.strokes == s.strokes && r.redoStack == s.redoStack && r.transform == s.transform
    decreases |inputs|
  {
    if inputs == [] then s
    else
      var i := inputs[0];
      ContinueAll(ContinueStroke(s, i.location, i.pressure, i.timestamp), inputs[1..])
  }

  /** Begin, any number of continues, then cancel: the committed strokes and the transform are
      as before, and the redo stack is what begin left, empty when the tool draws. */
  lemma {:induction false} BeginContinueCancel(s: DocState, tool: Tool, location: Vec2, pressure: real,
                                               brush: BrushSettings, id: StrokeId, timestamp: real,
                                               inputs: seq<PointInput>)
    ensures var r := CancelStroke(ContinueAll(BeginStroke(s, tool, location, pressure, brush, id, timestamp), inputs));
      r.strokes == s.strokes && r.transform == s.transform && r.currentStroke.None? &&
      r.redoStack == (if Draws(tool) then [] else s.redoStack)
  {
  }

  /** Two pans add up. */
  lemma {:induction false} TranslateComposes(s: DocState, a: Vec2, b: Vec2)
    ensures Translate(Translate(s, a), b) == Translate(s, Add(a, b))
  {
    var t := s.transform.translation;
    assert Add(Add(t, a), b) == Add(t, Add(a, b));
  }

  /** Tool identities are pairwise distinct. */
  lemma {:induction false} ToolIdsDistinct(a: Tool, b: Tool)
    requires a != b
    ensures RawValue(a) != RawValue(b) && Description(a) != Description(b) && SystemImage(a) != SystemImage(b)
  {
  }
}
