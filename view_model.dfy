/** The canvas view model: the document and transform state held in mutable fields, updated in
    place by the stroke, undo/redo and transform operations. Every method performs exactly the
    corresponding transition of module StrokeDocument on the state its fields make up, and keeps
    that module's invariant. */
module ViewModel {
  import opened Geometry
  import opened StrokeDocument

  class CanvasViewModel {
    var strokes: seq<Stroke>
    var redoStack: seq<Stroke>
    var transform: CanvasTransform
    var activeTool: Tool
    var currentStroke: Option<Stroke>
    const backgroundColor: Color

    /** The document state the fields make up. */
    function State(): DocState
      reads this
    {
      DocState(strokes, redoStack, currentStroke, transform)
    }

    ghost predicate Valid()
      reads this
    {
      Inv(State()) && backgroundColor == BackgroundColor
    }

    constructor ()
      ensures Valid()
      ensures State() == Initial && activeTool == Brush
    {
      strokes := [];
      redoStack := [];
      transform := Identity;
      activeTool := Brush;
      currentStroke := None;
      backgroundColor := BackgroundColor;
    }

    method BeginStroke(location: Vec2, pressure: real, brush: BrushSettings, id: StrokeId, timestamp: real)
      requires Valid()
      modifies this
      ensures Valid() && activeTool == old(activeTool)
      ensures State() == StrokeDocument.BeginStroke(old(State()), old(activeTool), location, pressure, brush, id, timestamp)
    {
      if !(activeTool == Brush || activeTool == Eraser) {
        return;
      }
      var color := if activeTool == Eraser then backgroundColor else brush.color;
      var stroke := Stroke(id, [StrokePoint(location, pressure, timestamp)], color, brush.size);
      currentStroke := Some(stroke);
      redoStack := [];
    }

    method ContinueStroke(location: Vec2, pressure: real, timestamp: real)
      requires Valid()
      modifies this
      ensures Valid() && activeTool == old(activeTool)
      ensures State() == StrokeDocument.ContinueStroke(old(State()), location, pressure, timestamp)
    {
      if currentStroke.None? {
        return;
      }
      var stroke := currentStroke.value;
      var point := StrokePoint(location, pressure, timestamp);
      if |stroke.points| > 0 {
        var lastPoint := stroke.points[|stroke.points| - 1];
        if SquaredLength(Sub(lastPoint.position, point.position)) < MinPointSpacing * MinPointSpacing {
          return;
        }
      }
      stroke := stroke.(points := stroke.points + [point]);
      currentStroke := Some(stroke);
    }

    method EndStroke()
      requires Valid()
      modifies this
      ensures Valid() && activeTool == old(activeTool)
      ensures State() == StrokeDocument.EndStroke(old(State()))
    {
      if currentStroke.None? {
        return;
      }
      strokes := strokes + [currentStroke.value];
      currentStroke := None;
    }

    /** The strokes to draw this frame, as a value the caller may keep. */
    function SnapshotStrokes(): (r: seq<Stroke>)
      reads this
      ensures r == Snapshot(State())
    {
      if currentStroke.Some? then strokes + [currentStroke.value] else strokes
    }

    method CancelStroke()
      requires Valid()
      modifies this
      ensures Valid() && activeTool == old(activeTool)
      ensures State() == StrokeDocument.CancelStroke(old(State()))
    {
      currentStroke := None;
    }

    method Undo()
      requires Valid()
      modifies this
      ensures Valid() && activeTool == old(activeTool)
      ensures State() == StrokeDocument.Undo(old(State()))
    {
      if strokes == [] {
        return;
      }
      var stroke := strokes[|strokes| - 1];
      strokes := strokes[..|strokes| - 1];
      redoStack := redoStack + [stroke];
    }

    method Redo()
      requires Valid()
      modifies this
      ensures Valid() && activeTool == old(activeTool)
      ensures State() == StrokeDocument.Redo(old(State()))
    {
      if redoStack == [] {
        return;
      }
      var stroke := redoStack[|redoStack| - 1];
      redoStack := redoStack[..|redoStack| - 1];
      strokes := strokes + [stroke];
    }

    method SetScale(scale: real)
      requires Valid()
      modifies this
      ensures Valid() && activeTool == old(activeTool)
      ensures State() == StrokeDocument.SetScale(old(State()), scale)
    {
      transform := transform.(scale := Max(MinScale, Min(scale, MaxScale)));
    }

    method SetTranslation(translation: Vec2)
      requires Valid()
      modifies this
      ensures Valid() && activeTool == old(activeTool)
      ensures State() == StrokeDocument.SetTranslation(old(State()), translation)
    {
      transform := transform.(translation := translation);
    }

    method Translate(delta: Vec2)
      requires Valid()
      modifies this
      ensures Valid() && activeTool == old(activeTool)
      ensures State() == StrokeDocument.Translate(old(State()), delta)
    {
      transform := transform.(translation := Add(transform.translation, delta));
    }

    method ResetView()
      requires Valid()
      modifies this
      ensures Valid() && activeTool == old(activeTool)
      ensures State() == StrokeDocument.ResetView(old(State()))
    {
      transform := Identity;
    }
  }
}
