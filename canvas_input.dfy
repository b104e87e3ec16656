/** Input routing of the canvas view: which keyboard, scroll and pinch events become which
    document or transform operations, and the coordinator that forwards pointer input into the
    view model only while a drawing tool is active. Platform events are modelled as records of
    the fields the routing reads. */
module CanvasInput {
  import opened Geometry
  import opened StrokeDocument
  import opened ViewModel

  // ---------------------------------------------------------------------------------------
  // Pure routing decisions

  datatype KeyEvent = KeyEvent(charactersIgnoringModifiers: Option<string>, command: bool, shift: bool)

  /** What a key press does: undo, redo, or hand the event on to the system. */
  datatype KeyCommand = UndoCommand | RedoCommand | PassOnKey

  function KeyCommandFor(e: KeyEvent): (c: KeyCommand)
    ensures c == UndoCommand <==>
      e.charactersIgnoringModifiers == Some("z") && e.command && !e.shift
    ensures c == RedoCommand <==>
      (e.charactersIgnoringModifiers == Some("z") || e.charactersIgnoringModifiers == Some("Z")) &&
      e.command && e.shift
  {
    match e.charactersIgnoringModifiers
    case None => PassOnKey
    case Some(characters) =>
      if characters == "z" && e.command && !e.shift then UndoCommand
      else if (characters == "Z" || characters == "z") && e.command && e.shift then RedoCommand
      else PassOnKey
  }

  /** Without the command key no key press reaches the document. */
  lemma {:induction false} NoCommandNoEdit(e: KeyEvent)
    requires !e.command
    ensures KeyCommandFor(e) == PassOnKey
  {
  }

  /** The pressure forwarded for a pointer event: the device's when positive, else full. */
  function EventPressure(pressure: real): (r: real)
    ensures r > 0.0
    ensures pressure > 0.0 ==> r == pressure
    ensures pressure <= 0.0 ==> r == 1.0
  {
    if pressure > 0.0 then pressure else 1.0
  }

  /** A gesture phase of a scroll event; NoPhase is the phase of a plain wheel. */
  datatype EventPhase = NoPhase | Began | Stationary | Changed | Ended | Cancelled | MayBegin

  datatype ScrollEvent = ScrollEvent(
    hasPreciseScrollingDeltas: bool,
    phase: EventPhase,
    momentumPhase: EventPhase,
    scrollingDeltaX: real,
    scrollingDeltaY: real)

  predicate IsTrackpadGesture(e: ScrollEvent) {
    e.hasPreciseScrollingDeltas || e.phase != NoPhase || e.momentumPhase != NoPhase
  }

  /** Where a scroll event goes: a pan of the canvas by a delta, or on to the system. */
  datatype ScrollRoute = Pan(delta: Vec2) | PassOnScroll

  /** `tool` is what the view's tool provider answers, None when it has none. */
  function RouteScroll(e: ScrollEvent, tool: Option<Tool>): (r: ScrollRoute)
    ensures r.Pan? <==> IsTrackpadGesture(e) || tool == Some(Hand)
    ensures r.Pan? ==> r.delta == Vec2(e.scrollingDeltaX, -e.scrollingDeltaY)
  {
    if IsTrackpadGesture(e) || tool == Some(Hand) then
      Pan(Vec2(e.scrollingDeltaX, -e.scrollingDeltaY))
    else
      PassOnScroll
  }

  /** The phase comparison as the compiler reads it. `NSEventPhaseNone` is zero, so it is
      imported as an unavailable member of the option set, and `.none` in `phase != .none`
      resolves to `Optional<NSEvent.Phase>.none`. A present phase is never equal to nil. */
  predicate DiffersFromNil(phase: EventPhase) {
    Some(phase) != None
  }

  /** The trackpad test with both phase comparisons read as comparisons with nil. */
  predicate IsTrackpadGestureAsWritten(e: ScrollEvent) {
    e.hasPreciseScrollingDeltas || DiffersFromNil(e.phase) || DiffersFromNil(e.momentumPhase)
  }

  /** The scroll routing as written: every event pans, whatever the tool. */
  function RouteScrollAsWritten(e: ScrollEvent, tool: Option<Tool>): (r: ScrollRoute)
    ensures r == Pan(Vec2(e.scrollingDeltaX, -e.scrollingDeltaY))
  {
    if IsTrackpadGestureAsWritten(e) || tool == Some(Hand) then
      Pan(Vec2(e.scrollingDeltaX, -e.scrollingDeltaY))
    else
      PassOnScroll
  }

  /** Exactly the events that are neither a trackpad gesture nor under the hand tool are
      routed differently: as written they pan, as intended they are passed on. */
  lemma {:induction false} ScrollRoutingDiscrepancy(e: ScrollEvent, tool: Option<Tool>)
    ensures RouteScrollAsWritten(e, tool) != RouteScroll(e, tool) <==>
      !IsTrackpadGesture(e) && tool != Some(Hand)
  {
  }

  /** A plain mouse-wheel notch under the brush pans the canvas as written, and is passed on to
      the system as intended. */
  lemma PlainWheelUnderBrush()
    ensures var e := ScrollEvent(false, NoPhase, NoPhase, 3.0, 4.0);
      RouteScrollAsWritten(e, Some(Brush)) == Pan(Vec2(3.0, -4.0)) &&
      RouteScroll(e, Some(Brush)) == PassOnScroll
  {
  }

  /** The zoom factor a pinch of the given magnification asks for. */
  function MagnifyFactor(magnification: real): real {
    1.0 + magnification
  }

  /** The document transition of one pinch: the current scale times the factor, clamped. */
  function Pinch(s: DocState, magnification: real): (r: DocState)
    ensures MinScale <= r.transform.scale <= MaxScale
    ensures r.transform.scale == ClampScale(s.transform.scale * (1.0 + magnification))
    ensures r.transform.translation == s.transform.translation
    ensures r.strokes == s.strokes && r.redoStack == s.redoStack && r.currentStroke == s.currentStroke
  {
    SetScale(s, s.transform.scale * MagnifyFactor(magnification))
  }

  function PinchAll(s: DocState, magnifications: seq<real>): DocState
    decreases |magnifications|
  {
    if magnifications == [] then s
    else PinchAll(Pinch(s, magnifications[0]), magnifications[1..])
  }

  /** However many pinches arrive, the scale stays within its range and nothing but the
      scale changes. */
  lemma {:induction false} PinchesStayInRange(s: DocState, magnifications: seq<real>)
    requires MinScale <= s.transform.scale <= MaxScale
    ensures var r := PinchAll(s, magnifications);
      MinScale <= r.transform.scale <= MaxScale &&
      r.transform.translation == s.transform.translation &&
      r.strokes == s.strokes && r.redoStack == s.redoStack && r.currentStroke == s.currentStroke
    decreases |magnifications|
  {
    if magnifications != [] {
      PinchesStayInRange(Pinch(s, magnifications[0]), magnifications[1..]);
    }
  }

  /** A pinch without magnification leaves a state with an in-range scale as it is. */
  lemma {:induction false} ZeroPinchIsNoOp(s: DocState)
    requires MinScale <= s.transform.scale <= MaxScale
    ensures Pinch(s, 0.0) == s
  {
    assert s.transform.scale * MagnifyFactor(0.0) == s.transform.scale;
  }

  // ---------------------------------------------------------------------------------------
  // The coordinator: forwards view input into the view model

  class Coordinator {
    const canvasViewModel: CanvasViewModel
    var brushSettings: BrushSettings

    constructor (canvasViewModel: CanvasViewModel, brushSettings: BrushSettings)
      ensures this.canvasViewModel == canvasViewModel && this.brushSettings == brushSettings
    {
      this.canvasViewModel := canvasViewModel;
      this.brushSettings := brushSettings;
    }

    /** Starts a stroke at the canvas point under `viewPoint`, if a drawing tool is active. */
    method BeginStroke(viewPoint: Vec2, pressure: real, viewSize: Vec2, id: StrokeId, timestamp: real)
      requires canvasViewModel.Valid()
      modifies canvasViewModel
      ensures canvasViewModel.Valid() && canvasViewModel.activeTool == old(canvasViewModel.activeTool)
      ensures !Draws(old(canvasViewModel.activeTool)) ==> canvasViewModel.State() == old(canvasViewModel.State())
      ensures Draws(old(canvasViewModel.activeTool)) ==>
        canvasViewModel.State() ==
          StrokeDocument.BeginStroke(old(canvasViewModel.State()), old(canvasViewModel.activeTool),
            CanvasPoint(old(canvasViewModel.transform), viewPoint, viewSize), pressure, brushSettings, id, timestamp)
    {
      if !(canvasViewModel.activeTool == Brush || canvasViewModel.activeTool == Eraser) {
        return;
      }
      var canvasPoint := CanvasPoint(canvasViewModel.transform, viewPoint, viewSize);
      canvasViewModel.BeginStroke(canvasPoint, pressure, brushSettings, id, timestamp);
    }

    /** Extends the stroke to the canvas point under `viewPoint`, if a drawing tool is active. */
    method ContinueStroke(viewPoint: Vec2, pressure: real, viewSize: Vec2, timestamp: real)
      requires canvasViewModel.Valid()
      modifies canvasViewModel
      ensures canvasViewModel.Valid() && canvasViewModel.activeTool == old(canvasViewModel.activeTool)
      ensures !Draws(old(canvasViewModel.activeTool)) ==> canvasViewModel.State() == old(canvasViewModel.State())
      ensures Draws(old(canvasViewModel.activeTool)) ==>
        canvasViewModel.State() ==
          StrokeDocument.ContinueStroke(old(canvasViewModel.State()),
            CanvasPoint(old(canvasViewModel.transform), viewPoint, viewSize), pressure, timestamp)
    {
      if !(canvasViewModel.activeTool == Brush || canvasViewModel.activeTool == Eraser) {
        return;
      }
      var canvasPoint := CanvasPoint(canvasViewModel.transform, viewPoint, viewSize);
      canvasViewModel.ContinueStroke(canvasPoint, pressure, timestamp);
    }

    method EndStroke()
      requires canvasViewModel.Valid()
      modifies canvasViewModel
      ensures canvasViewModel.Valid() && canvasViewModel.activeTool == old(canvasViewModel.activeTool)
      ensures canvasViewModel.State() == StrokeDocument.EndStroke(old(canvasViewModel.State()))
    {
      canvasViewModel.EndStroke();
    }

    method CancelStroke()
      requires canvasViewModel.Valid()
      modifies canvasViewModel
      ensures canvasViewModel.Valid() && canvasViewModel.activeTool == old(canvasViewModel.activeTool)
      ensures canvasViewModel.State() == StrokeDocument.CancelStroke(old(canvasViewModel.State()))
    {
      canvasViewModel.CancelStroke();
    }

    method Translate(delta: Vec2)
      requires canvasViewModel.Valid()
      modifies canvasViewModel
      ensures canvasViewModel.Valid() && canvasViewModel.activeTool == old(canvasViewModel.activeTool)
      ensures canvasViewModel.State() == StrokeDocument.Translate(old(canvasViewModel.State()), delta)
    {
      canvasViewModel.Translate(delta);
    }

    /** Zooms by a factor relative to the current scale; the view model clamps the result. */
    method Magnify(scaleDelta: real)
      requires canvasViewModel.Valid()
      modifies canvasViewModel
      ensures canvasViewModel.Valid() && canvasViewModel.activeTool == old(canvasViewModel.activeTool)
      ensures canvasViewModel.State() ==
        StrokeDocument.SetScale(old(canvasViewModel.State()), old(canvasViewModel.transform.scale) * scaleDelta)
    {
      var currentScale := canvasViewModel.transform.scale;
      canvasViewModel.SetScale(currentScale * scaleDelta);
    }

    method Undo()
      requires canvasViewModel.Valid()
      modifies canvasViewModel
      ensures canvasViewModel.Valid() && canvasViewModel.activeTool == old(canvasViewModel.activeTool)
      ensures canvasViewModel.State() == StrokeDocument.Undo(old(canvasViewModel.State()))
    {
      canvasViewModel.Undo();
    }

    method Redo()
      requires canvasViewModel.Valid()
      modifies canvasViewModel
      ensures canvasViewModel.Valid() && canvasViewModel.activeTool == old(canvasViewModel.activeTool)
      ensures canvasViewModel.State() == StrokeDocument.Redo(old(canvasViewModel.State()))
    {
      canvasViewModel.Redo();
    }
  }

  // ---------------------------------------------------------------------------------------
  // The canvas view: turns platform events into coordinator calls

  class CanvasMTKView {
    const interactionDelegate: Coordinator
    /** The size of the view's bounds. */
    var bounds: Vec2

    constructor (interactionDelegate: Coordinator, bounds: Vec2)
      ensures this.interactionDelegate == interactionDelegate && this.bounds == bounds
    {
      this.interactionDelegate := interactionDelegate;
      this.bounds := bounds;
    }

    method MouseDown(location: Vec2, eventPressure: real, id: StrokeId, timestamp: real)
      requires interactionDelegate.canvasViewModel.Valid()
      modifies interactionDelegate.canvasViewModel
      ensures interactionDelegate.canvasViewModel.Valid()
      ensures var vm := interactionDelegate.canvasViewModel;
        vm.activeTool == old(vm.activeTool) &&
        vm.State() ==
          if Draws(old(vm.activeTool)) then
            StrokeDocument.BeginStroke(old(vm.State()), old(vm.activeTool),
              CanvasPoint(old(vm.transform), location, bounds), EventPressure(eventPressure),
              interactionDelegate.brushSettings, id, timestamp)
          else old(vm.State())
    {
      interactionDelegate.BeginStroke(location, EventPressure(eventPressure), bounds, id, timestamp);
    }

    method MouseDragged(location: Vec2, eventPressure: real, timestamp: real)
      requires interactionDelegate.canvasViewModel.Valid()
      modifies interactionDelegate.canvasViewModel
      ensures interactionDelegate.canvasViewModel.Valid()
      ensures var vm := interactionDelegate.canvasViewModel;
        vm.activeTool == old(vm.activeTool) &&
        vm.State() ==
          if Draws(old(vm.activeTool)) then
            StrokeDocument.ContinueStroke(old(vm.State()),
              CanvasPoint(old(vm.transform), location, bounds), EventPressure(eventPressure), timestamp)
          else old(vm.State())
    {
      interactionDelegate.ContinueStroke(location, EventPressure(eventPressure), bounds, timestamp);
    }

    method MouseUp()
      requires interactionDelegate.canvasViewModel.Valid()
      modifies interactionDelegate.canvasViewModel
      ensures interactionDelegate.canvasViewModel.Valid()
      ensures var vm := interactionDelegate.canvasViewModel;
        vm.activeTool == old(vm.activeTool) &&
        vm.State() == StrokeDocument.EndStroke(old(vm.State()))
    {
      interactionDelegate.EndStroke();
    }

    /** Pans for a trackpad gesture or under the hand tool; otherwise the event is passed on. */
    method ScrollWheel(e: ScrollEvent) returns (passedOn: bool)
      requires interactionDelegate.canvasViewModel.Valid()
      modifies interactionDelegate.canvasViewModel
      ensures interactionDelegate.canvasViewModel.Valid()
      ensures var vm := interactionDelegate.canvasViewModel;
        vm.activeTool == old(vm.activeTool) &&
        passedOn == !(IsTrackpadGesture(e) || old(vm.activeTool) == Hand) &&
        vm.State() ==
          if passedOn then old(vm.State())
          else StrokeDocument.Translate(old(vm.State()), Vec2(e.scrollingDeltaX, -e.scrollingDeltaY))
    {
      var tool := Some(interactionDelegate.canvasViewModel.activeTool);
      match RouteScroll(e, tool)
      case Pan(delta) =>
        interactionDelegate.Translate(delta);
        passedOn := false;
      case PassOnScroll =>
        passedOn := true;
    }

    /** A pinch: zoom by one plus the magnification, clamped into the scale range. */
    method MagnifyWith(magnification: real)
      requires interactionDelegate.canvasViewModel.Valid()
      modifies interactionDelegate.canvasViewModel
      ensures interactionDelegate.canvasViewModel.Valid()
      ensures var vm := interactionDelegate.canvasViewModel;
        vm.activeTool == old(vm.activeTool) &&
        vm.State() == Pinch(old(vm.State()), magnification)
    {
      interactionDelegate.Magnify(MagnifyFactor(magnification));
    }

    /** Command-z undoes, command-shift-z redoes; any other key is passed on. */
    method KeyDown(e: KeyEvent) returns (passedOn: bool)
      requires interactionDelegate.canvasViewModel.Valid()
      modifies interactionDelegate.canvasViewModel
      ensures interactionDelegate.canvasViewModel.Valid()
      ensures var vm := interactionDelegate.canvasViewModel;
        vm.activeTool == old(vm.activeTool) &&
        passedOn == (KeyCommandFor(e) == PassOnKey) &&
        vm.State() ==
          match KeyCommandFor(e)
          case UndoCommand => StrokeDocument.Undo(old(vm.State()))
          case RedoCommand => StrokeDocument.Redo(old(vm.State()))
          case PassOnKey => old(vm.State())
    {
      match KeyCommandFor(e)
      case UndoCommand =>
        interactionDelegate.Undo();
        passedOn := false;
      case RedoCommand =>
        interactionDelegate.Redo();
        passedOn := false;
      case PassOnKey =>
        passedOn := true;
    }
  }
}
