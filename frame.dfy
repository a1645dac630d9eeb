/**
  The frame loop of main.c's `main`: the state it mutates each iteration
  (camera zoom and target, drag anchor, drag flag, grid flag) and the
  per-frame update. The raylib input calls become one FrameInput per
  frame; the window, drawing and frame pacing calls are left out, except
  that each frame reports the grid lines DrawDynamicGrid draws.
*/
module Frame {
  import opened Vector
  import opened Camera
  import opened Grid

  /** How much one wheel tick changes the zoom (`0.05f`). */
  const ZoomStep: real := 0.05

  /**
    What raylib reports for one frame: GetMousePosition (it has three call
    sites, at most two of which run in one frame, and all return the same
    value because raylib polls input once per frame), GetMouseWheelMove
    already cast to int, IsMouseButtonDown(MOUSE_MIDDLE_BUTTON) and
    IsKeyPressed(KEY_G).
  */
  datatype FrameInput = FrameInput(mouse: Vector2, wheel: int, middleDown: bool, gPressed: bool)

  /** The variables of `main` that the loop updates. */
  datatype AppState = AppState(camera: Camera2D, dragStart: Vector2, isDragging: bool, showGrid: bool)

  /** The state before the first frame: zoom 1, target and anchor at the origin, grid shown. */
  function Initial(): (s: AppState)
    ensures MinZoom <= s.camera.zoom <= MaxZoom
  {
    AppState(Camera2D(Vector2(0.0, 0.0), 1.0), Vector2(0.0, 0.0), false, true)
  }

  /** The zoom after one wheel step: whatever the wheel says, it ends in [0.5, 3]. */
  function WheelZoom(zoom: real, wheel: int): (z: real)
    ensures MinZoom <= z <= MaxZoom
    ensures MinZoom <= zoom + wheel as real * ZoomStep <= MaxZoom ==> z == zoom + wheel as real * ZoomStep
    ensures zoom + wheel as real * ZoomStep <= MinZoom ==> z == MinZoom
    ensures zoom + wheel as real * ZoomStep >= MaxZoom ==> z == MaxZoom
  {
    Clamp(zoom + wheel as real * ZoomStep, MinZoom, MaxZoom)
  }

  /**
    The zoom step and the target correction that follows it: the world
    point under the mouse is the same before and after, the zoom ends in
    range, and nothing but the camera changes.
  */
  function ZoomPhase(s: AppState, mouse: Vector2, wheel: int): (s': AppState)
    requires s.camera.zoom != 0.0
    ensures s'.camera.zoom == WheelZoom(s.camera.zoom, wheel)
    ensures ScreenToWorld(mouse, s'.camera) == ScreenToWorld(mouse, s.camera)
    ensures s'.dragStart == s.dragStart && s'.isDragging == s.isDragging && s'.showGrid == s.showGrid
  {
    var before := ScreenToWorld(mouse, s.camera);
    var zoomed := s.camera.(zoom := WheelZoom(s.camera.zoom, wheel));
    var after := ScreenToWorld(mouse, zoomed);
    s.(camera := zoomed.(target := Vector2(zoomed.target.x + (before.x - after.x),
                                            zoomed.target.y + (before.y - after.y))))
  }

  /**
    The middle-button state machine: a press starts a drag at the mouse,
    a held button moves the target by the mouse displacement divided by the
    zoom and re-anchors, a released button ends the drag.
  */
  function DragPhase(s: AppState, mouse: Vector2, held: bool): (s': AppState)
    requires s.camera.zoom != 0.0
    ensures s'.camera.zoom == s.camera.zoom && s'.showGrid == s.showGrid
    ensures s'.isDragging == held
    ensures held ==> s'.dragStart == mouse
    ensures !(held && s.isDragging) ==> s'.camera.target == s.camera.target
    ensures !held ==> s'.dragStart == s.dragStart
    // while dragging, the world point that was under the previous anchor is under the mouse now
    ensures held && s.isDragging ==> ScreenToWorld(mouse, s'.camera) == ScreenToWorld(s.dragStart, s.camera)
  {
    if held then
      if !s.isDragging then
        s.(dragStart := mouse, isDragging := true)
      else
        var dragDelta := Subtract(s.dragStart, mouse);
        var moved := Add(s.camera.target, Scale(dragDelta, 1.0 / s.camera.zoom));
        DragKeepsGrabbedPoint(s.camera, s.dragStart, mouse);
        s.(camera := s.camera.(target := moved), dragStart := mouse)
    else
      s.(isDragging := false)
  }

  /** The pan arithmetic: moving the target by (anchor - mouse) / zoom keeps the grabbed world point under the mouse. */
  lemma DragKeepsGrabbedPoint(camera: Camera2D, anchor: Vector2, mouse: Vector2)
    requires camera.zoom != 0.0
    ensures var moved := Add(camera.target, Scale(Subtract(anchor, mouse), 1.0 / camera.zoom));
      ScreenToWorld(mouse, camera.(target := moved)) == ScreenToWorld(anchor, camera)
  {
    var z := camera.zoom;
    ScaleSubtract(anchor, mouse, 1.0 / z);
    assert anchor.x * (1.0 / z) == anchor.x / z && mouse.x * (1.0 / z) == mouse.x / z;
    assert anchor.y * (1.0 / z) == anchor.y / z && mouse.y * (1.0 / z) == mouse.y / z;
  }

  /** The G key flips the grid flag on the frame it is pressed. */
  function TogglePhase(s: AppState, pressed: bool): (s': AppState)
    ensures s'.showGrid == (s.showGrid != pressed)
    ensures s'.camera == s.camera && s'.dragStart == s.dragStart && s'.isDragging == s.isDragging
  {
    if pressed then s.(showGrid := !s.showGrid) else s
  }

  /** One iteration of the loop body of `main`, as a function of the previous state. */
  function Next(s: AppState, input: FrameInput): AppState
    requires s.camera.zoom != 0.0
  {
    var zoomed := ZoomPhase(s, input.mouse, input.wheel);
    var dragged := DragPhase(zoomed, input.mouse, input.middleDown);
    TogglePhase(dragged, input.gPressed)
  }

  /** The state after the given frames, starting from Initial(). */
  function Simulate(inputs: seq<FrameInput>): (s: AppState)
    ensures MinZoom <= s.camera.zoom <= MaxZoom
    decreases |inputs|
  {
    if |inputs| == 0 then Initial()
    else
      var before := Simulate(inputs[..|inputs| - 1]);
      var s := Next(before, inputs[|inputs| - 1]);
      assert s.camera.zoom == WheelZoom(before.camera.zoom, inputs[|inputs| - 1].wheel);
      s
  }

  /** The lines the grid draw of the last of the given frames produces. */
  function LastFrameLines(inputs: seq<FrameInput>): (lines: seq<Line>)
    ensures |lines| == if Presses(inputs) % 2 == 0 then 144 + 81 else 0
  {
    var s := Simulate(inputs);
    ScaledSpacingInRange(s.camera.zoom);
    GridShownIffEvenPresses(inputs);
    GridLines(s.camera, s.showGrid)
  }

  /** After any frame the zoom lies in [0.5, 3], whatever the previous zoom and wheel. */
  lemma NextZoomInRange(s: AppState, input: FrameInput)
    requires s.camera.zoom != 0.0
    ensures MinZoom <= Next(s, input).camera.zoom <= MaxZoom
  {
  }

  /**
    After any frame the drag flag equals the button state; a held button
    leaves the anchor at the mouse, a released one leaves it where it was.
  */
  lemma NextDragState(s: AppState, input: FrameInput)
    requires s.camera.zoom != 0.0
    ensures var s' := Next(s, input);
      && s'.isDragging == input.middleDown
      && (input.middleDown ==> s'.dragStart == input.mouse)
      && (!input.middleDown ==> s'.dragStart == s.dragStart)
  {
  }

  /**
    A frame that does not continue a drag moves the target only by the
    zoom correction, so the world point under the mouse stays put.
  */
  lemma NextAnchorsCursor(s: AppState, input: FrameInput)
    requires s.camera.zoom != 0.0
    requires !(input.middleDown && s.isDragging)
    ensures ScreenToWorld(input.mouse, Next(s, input).camera) == ScreenToWorld(input.mouse, s.camera)
  {
    var zoomed := ZoomPhase(s, input.mouse, input.wheel);
    assert DragPhase(zoomed, input.mouse, input.middleDown).camera == zoomed.camera;
  }

  /**
    Panning at zoom 1 without a wheel step: the target moves by exactly
    the negated mouse displacement since the last frame.
  */
  lemma PanAtUnitZoom(s: AppState, input: FrameInput)
    requires s.camera.zoom == 1.0 && input.wheel == 0
    requires s.isDragging && input.middleDown
    ensures Next(s, input).camera.target == Subtract(s.camera.target, Subtract(input.mouse, s.dragStart))
  {
    var zoomed := ZoomPhase(s, input.mouse, input.wheel);
    assert zoomed.camera.zoom == 1.0;
    assert zoomed.camera.target == s.camera.target;
  }

  /**
    Panning at zoom 2 without a wheel step: the target moves by half the
    negated mouse displacement.
  */
  lemma PanAtDoubleZoom(s: AppState, input: FrameInput)
    requires s.camera.zoom == 2.0 && input.wheel == 0
    requires s.isDragging && input.middleDown
    ensures Next(s, input).camera.target == Subtract(s.camera.target, Scale(Subtract(input.mouse, s.dragStart), 0.5))
  {
    var zoomed := ZoomPhase(s, input.mouse, input.wheel);
    assert zoomed.camera.zoom == 2.0;
    assert zoomed.camera.target == s.camera.target;
  }

  /**
    A drag frame without a wheel step, from a zoom in range: the world
    point that was under the anchor is under the mouse afterwards.
  */
  lemma PanKeepsGrabbedPoint(s: AppState, input: FrameInput)
    requires MinZoom <= s.camera.zoom <= MaxZoom && input.wheel == 0
    requires s.isDragging && input.middleDown
    ensures ScreenToWorld(input.mouse, Next(s, input).camera) == ScreenToWorld(s.dragStart, s.camera)
  {
    var zoomed := ZoomPhase(s, input.mouse, input.wheel);
    assert zoomed.camera.zoom == s.camera.zoom;
    assert zoomed.camera.target == s.camera.target;
  }

  /** Pressing G on two frames in a row restores the grid flag. */
  lemma ToggleTwiceRestores(s: AppState, first: FrameInput, second: FrameInput)
    requires s.camera.zoom != 0.0
    requires first.gPressed && second.gPressed
    ensures Next(s, first).camera.zoom != 0.0
    ensures Next(Next(s, first), second).showGrid == s.showGrid
  {
  }

  /** A frame without a G press leaves the grid flag; one with a press flips it. */
  lemma ToggleOnPress(s: AppState, input: FrameInput)
    requires s.camera.zoom != 0.0
    ensures Next(s, input).showGrid == (s.showGrid != input.gPressed)
  {
  }

  /** How many of the frames saw a G press. */
  function Presses(inputs: seq<FrameInput>): nat
    decreases |inputs|
  {
    if |inputs| == 0 then 0
    else Presses(inputs[..|inputs| - 1]) + (if inputs[|inputs| - 1].gPressed then 1 else 0)
  }

  /** After any run of frames the grid is shown exactly when G was pressed an even number of times. */
  lemma {:induction false} GridShownIffEvenPresses(inputs: seq<FrameInput>)
    ensures Simulate(inputs).showGrid <==> Presses(inputs) % 2 == 0
    decreases |inputs|
  {
    if |inputs| > 0 {
      var earlier, last := inputs[..|inputs| - 1], inputs[|inputs| - 1];
      GridShownIffEvenPresses(earlier);
      ToggleOnPress(Simulate(earlier), last);
      assert Simulate(inputs).showGrid == (Simulate(earlier).showGrid != last.gPressed);
      assert Presses(inputs) == Presses(earlier) + (if last.gPressed then 1 else 0);
      SuccessorFlipsParity(Presses(earlier));
    }
  }

  lemma SuccessorFlipsParity(p: nat)
    ensures (p + 1) % 2 == 0 <==> p % 2 != 0
  {
  }

  /** Without wheel movement the zoom stays at its initial 1 over any run of frames. */
  lemma {:induction false} NoWheelKeepsUnitZoom(inputs: seq<FrameInput>)
    requires forall k :: 0 <= k < |inputs| ==> inputs[k].wheel == 0
    ensures Simulate(inputs).camera.zoom == 1.0
    decreases |inputs|
  {
    if |inputs| > 0 {
      var earlier := inputs[..|inputs| - 1];
      assert forall k :: 0 <= k < |earlier| ==> earlier[k] == inputs[k];
      NoWheelKeepsUnitZoom(earlier);
      assert WheelZoom(1.0, 0) == 1.0;
    }
  }

  /** The mutable locals of `main`, updated in place by each frame. */
  class App {
    var camera: Camera2D
    var dragStart: Vector2
    var isDragging: bool
    var showGrid: bool

    /** The loop invariant of `main`: the zoom lies in [0.5, 3]. */
    ghost predicate Valid()
      reads this
    {
      MinZoom <= camera.zoom <= MaxZoom
    }

    /** The values of the fields, as one record. */
    function State(): AppState
      reads this
    {
      AppState(camera, dragStart, isDragging, showGrid)
    }

    /** The initialisation before the loop (main.c lines 17-23). */
    constructor ()
      ensures Valid() && State() == Initial()
    {
      camera := Camera2D(Vector2(0.0, 0.0), 1.0);
      dragStart := Vector2(0.0, 0.0);
      isDragging := false;
      showGrid := true;
    }

    /** One iteration of the loop body, updating the fields in place. */
    method Step(input: FrameInput)
      requires Valid()
      modifies this
      ensures Valid()
      ensures State() == Next(old(State()), input)
    {
      var mousePos := input.mouse;
      var mousePosWorldBeforeZoom := ScreenToWorld(mousePos, camera);

      var mouseWheelMove := input.wheel;
      camera := camera.(zoom := camera.zoom + mouseWheelMove as real * ZoomStep);
      camera := camera.(zoom := Clamp(camera.zoom, MinZoom, MaxZoom));

      var mousePosWorldAfterZoom := ScreenToWorld(mousePos, camera);

      camera := camera.(target := camera.target.(x := camera.target.x + (mousePosWorldBeforeZoom.x - mousePosWorldAfterZoom.x)));
      camera := camera.(target := camera.target.(y := camera.target.y + (mousePosWorldBeforeZoom.y - mousePosWorldAfterZoom.y)));

      if input.middleDown {
        if !isDragging {
          dragStart := input.mouse;
          isDragging := true;
        } else {
          var dragPosition := input.mouse;
          var dragDelta := Subtract(dragStart, dragPosition);
          camera := camera.(target := Add(camera.target, Scale(dragDelta, 1.0 / camera.zoom)));
          dragStart := dragPosition;
        }
      } else {
        isDragging := false;
      }

      if input.gPressed {
        showGrid := !showGrid;
      }
    }
  }

  /**
    The `while` loop of `main` over a finite run of frames: each frame
    updates the state and then draws the grid. The result is the final
    state and, per frame, the lines DrawDynamicGrid drew.
  */
  /** The state after some frames can be drawn, and its lines are LastFrameLines. */
  lemma FrameDrawsLastLines(inputs: seq<FrameInput>)
    ensures var s := Simulate(inputs);
      && Drawable(s.camera.zoom)
      && LastFrameLines(inputs) == GridLines(s.camera, s.showGrid)
  {
    ScaledSpacingInRange(Simulate(inputs).camera.zoom);
  }

  method Run(inputs: seq<FrameInput>) returns (final: AppState, drawn: seq<seq<Line>>)
    ensures final == Simulate(inputs)
    ensures MinZoom <= final.camera.zoom <= MaxZoom
    ensures |drawn| == |inputs|
    ensures forall k :: 0 <= k < |inputs| ==> drawn[k] == LastFrameLines(inputs[..k + 1])
  {
    var app := new App();
    drawn := [];
    var i := 0;
    assert inputs[..0] == [];
    while i < |inputs|
      invariant 0 <= i <= |inputs|
      invariant fresh(app) && app.Valid()
      invariant app.State() == Simulate(inputs[..i])
      invariant |drawn| == i
      invariant forall k :: 0 <= k < i ==> drawn[k] == LastFrameLines(inputs[..k + 1])
    {
      app.Step(inputs[i]);
      assert inputs[..i + 1][..i] == inputs[..i];
      FrameDrawsLastLines(inputs[..i + 1]);
      var lines := DrawDynamicGrid(app.camera, app.showGrid);
      drawn := drawn + [lines];
      i := i + 1;
    }
    assert inputs[..i] == inputs;
    final := app.State();
  }
}
