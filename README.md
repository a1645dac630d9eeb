# Pannable, zoomable grid demo: a Dafny model of `main.c`

The program is a raylib demo. It opens a 1920x1080 window and draws a grid.
Scrolling zooms the view, and the zoom stays anchored at the mouse cursor.
Holding the middle mouse button pans the view. The G key shows or hides the grid.
This project models the two pieces of logic in `main.c`:

- **The per-frame update** of `main`'s loop. It changes the camera zoom and target, the drag anchor, the drag flag and the grid flag.
  - `Frame.App` holds these variables as fields.
  - `Frame.App.Step` updates them in place, statement for statement.
  - `Frame.Next` is the same update as a function of the previous state. It is built from three phase functions: `ZoomPhase` covers the wheel step, its clamp and the target correction; `DragPhase` covers the middle-button state machine; `TogglePhase` covers the G toggle.
  - `Frame.Run` is the `while` loop, run over a finite sequence of frames. Each frame updates the state and then draws the grid.
- **Grid geometry** (`DrawDynamicGrid`). The model returns the `DrawLine` calls, as `Grid.Line` endpoints in the order they are drawn.
  - `Grid.GridLines` states what those lines are.
  - `CInt` gives the C semantics the offsets depend on: the `(int)` cast truncates toward zero, and `%` is the remainder of a truncating division (section 6.5.5 of ISO/IEC 9899:1999).

Modelling choices and library assumptions:

- Single-precision floats are mathematical reals, and `0.05f` is the real 0.05.
- `Camera2D camera = {0}` leaves the camera's `offset` at (0, 0) and its `rotation` at 0. For such a camera, raylib's `GetScreenToWorld2D` is `world = screen / zoom + target`. The model states this as `Camera.ScreenToWorld`; this formula is an assumption about raylib.
- Input becomes one `Frame.FrameInput` per frame, holding the mouse position, the wheel ticks (already cast to `int`, as `main.c` does), the middle button and the G key edge. `GetMousePosition` has three call sites, and at most two of them run in one frame. All of them return the same value, because raylib polls input once per frame.
- The lemmas `AddUndoesSubtract` and `ScaleByInverse` are standalone algebra facts about the vector helpers; no other proof calls them. `ScaleSubtract` is used by `DragKeepsGrabbedPoint`.
- `WindowShouldClose` ends the loop. The model runs the loop over a given finite sequence of frames instead.

## Model

| member | source | states |
|---|---|---|
| `Vector.Subtract` | main.c:105-108 | defines `Vector2SubtractCustom`, the component-wise difference; what it means is stated by `AddUndoesSubtract` and `ScaleSubtract` |
| `Vector.Add` | main.c:110-113 | defines `Vector2AddCustom`, the component-wise sum; `AddUndoesSubtract` states it is the inverse of `Subtract` |
| `Vector.Scale` | main.c:115-118 | defines `Vector2ScaleCustom`, each component times the scale; `ScaleByInverse` states that scaling by 1/s undoes scaling by s |
| `Vector.AddUndoesSubtract` | main.c:105-113 | adding back a subtracted vector gives the original, and the other way round |
| `Vector.ScaleByInverse` | main.c:115-118 | scaling by s and then by 1/s is the identity, for s other than 0 |
| `Vector.ScaleSubtract` | main.c:105-118 | scaling distributes over a vector difference |
| `Vector.Clamp` | main.c:120-124 | if min <= max, the result lies in [min, max]; an in-range value comes back unchanged; the result is one of value, min, max; a value below min gives min (the lower bound is checked first); otherwise a value above max gives max |
| `Vector.ClampIsNearest` | main.c:120-124 | the clamped value is a point of [min, max] nearest to the input |
| `Vector.ClampIdempotent` | main.c:120-124 | clamping twice gives the same result as clamping once |
| `Vector.ClampMonotonic` | main.c:120-124 | clamp preserves order |
| `Camera.ScreenToWorld` | main.c:29-35 | `GetScreenToWorld2D` for the demo's camera (offset 0, rotation 0), taken as world = screen / zoom + target, an assumption about raylib; mapping the result back to the screen gives the original point |
| `Camera.WorldScreenRoundTrip` | main.c:17-19 | world to screen and back is the identity on world points |
| `CInt.TruncToInt` | main.c:91-92 | the C cast drops the fractional part: the result is within 1 of x and lies on the same side of zero |
| `CInt.CRem` | main.c:91-92 | C's `%`: \|a % b\| < \|b\|, and the remainder has the sign of the dividend |
| `CInt.DivRemIdentity` | main.c:91-92 | C's division identity (a / b) * b + a % b == a, with `/` truncating toward zero |
| `CInt.CRemUnique` | main.c:91-92 | the identity, the bound and the sign determine the remainder: any r that satisfies all three is `CRem(a, b)` |
| `Grid.ScaledSpacing` | main.c:84-92 | `(int)scaledSpacing`, 40 times the zoom truncated toward zero; `ScaledSpacingInRange` bounds it |
| `Grid.CameraSpace` | main.c:86-89 | `cameraSpace`, the target minus half the screen size times the zoom |
| `Grid.OffsetX` | main.c:91 | `offsetX` is smaller in magnitude than `(int)scaledSpacing` and has the sign of the truncated camera-space x |
| `Grid.OffsetY` | main.c:92 | `offsetY` is smaller in magnitude than `(int)scaledSpacing` and has the sign of the truncated camera-space y |
| `Grid.GridLines` | main.c:78-102 | the lines one call draws: none when the grid is hidden, else 3 * 48 vertical lines and then 3 * 27 horizontal ones (their positions are stated by `GridLinesShape`) |
| `Grid.DrawDynamicGrid` | main.c:77-102 | the two counting loops emit exactly `GridLines(camera, showGrid)`, and nothing when the grid is hidden |
| `Grid.GridLinesShape` | main.c:80-102 | a shown grid has 144 vertical lines, the k-th at (k - 48) * 40 - offsetX, then 81 horizontal lines, the k-th at (k - 27) * 40 - offsetY; neighbouring lines are 40 apart |
| `Grid.HiddenGridIsEmpty` | main.c:78 | a hidden grid draws no lines |
| `Grid.ScaledSpacingInRange` | main.c:84-92 | for a zoom in [0.5, 3], `(int)scaledSpacing` lies in [20, 120], so the `%` never divides by zero |
| `Grid.OffsetsBounded` | main.c:86-92 | for a zoom in [0.5, 3], each offset is smaller in magnitude than `(int)scaledSpacing` and has the sign of the truncated camera-space coordinate; that coordinate minus the offset is a whole multiple of `(int)scaledSpacing` |
| `Frame.Initial` | main.c:17-23 | the state before the first frame (zoom 1, target and anchor at the origin, not dragging, grid shown); its zoom lies in [0.5, 3] |
| `Frame.WheelZoom` | main.c:31-33 | whatever the previous zoom and the wheel delta, the new zoom lies in [0.5, 3]; if zoom + 0.05 * ticks is already in range, it is taken as is; below the range it saturates at 0.5, above it at 3 |
| `Frame.ZoomPhase` | main.c:28-39 | the zoom becomes the clamped wheel zoom; the world point under the mouse is the same after the target correction as before the zoom change; the drag and grid state are untouched |
| `Frame.DragPhase` | main.c:43-55 | after this phase the drag flag equals the button state. Start and release leave the target alone. Release also keeps the anchor. A held button puts the anchor at the mouse. While dragging, the world point under the old anchor ends up under the mouse, and the zoom is unchanged |
| `Frame.DragKeepsGrabbedPoint` | main.c:47-51 | moving the target by (anchor - mouse) * (1/zoom) puts the world point that was under the anchor under the mouse |
| `Frame.TogglePhase` | main.c:57-59 | the grid flag flips when G is pressed and is kept otherwise; nothing else changes |
| `Frame.Next` | main.c:28-59 | one frame's update: the zoom phase, then the drag phase, then the G toggle, in the order of `main.c`; its properties are the `Next*` lemmas below |
| `Frame.Simulate` | main.c:17-59 | the zoom stays in [0.5, 3] after any number of frames from the initial state |
| `Frame.NextZoomInRange` | main.c:31-33 | after any frame, the zoom lies in [0.5, 3] |
| `Frame.NextDragState` | main.c:43-55 | after any frame, the drag flag equals the button state; a held button leaves the anchor at the mouse; a released one leaves the anchor where it was |
| `Frame.NextAnchorsCursor` | main.c:28-55 | a frame that does not continue a drag keeps the world point under the mouse fixed |
| `Frame.PanAtUnitZoom` | main.c:47-51 | a drag frame at zoom 1 with no wheel step moves the target by exactly the negated mouse displacement |
| `Frame.PanAtDoubleZoom` | main.c:47-51 | a drag frame at zoom 2 with no wheel step moves the target by half the negated mouse displacement |
| `Frame.PanKeepsGrabbedPoint` | main.c:43-51 | a drag frame with no wheel step puts the world point that was under the anchor under the mouse |
| `Frame.ToggleTwiceRestores` | main.c:57-59 | pressing G on two consecutive frames restores the grid flag |
| `Frame.ToggleOnPress` | main.c:57-59 | a frame flips the grid flag exactly when G is pressed |
| `Frame.GridShownIffEvenPresses` | main.c:23-59 | after any run of frames from the start, the grid is shown exactly when G was pressed an even number of times |
| `Frame.NoWheelKeepsUnitZoom` | main.c:18-33 | if no frame moves the wheel, the zoom stays at its initial 1 |
| `Frame.App.constructor` | main.c:17-23 | the initial state: zoom 1, target and anchor at the origin, not dragging, grid shown |
| `Frame.App.Step` | main.c:28-59 | the in-place update keeps the zoom in [0.5, 3] and leaves the fields equal to `Next` of the old fields |
| `Frame.LastFrameLines` | main.c:65 | the lines drawn in the last of some frames: the full grid of 144 + 81 lines when G was pressed an even number of times, and none otherwise |
| `Frame.FrameDrawsLastLines` | main.c:64-65 | after any frames the zoom avoids the `%` by zero, and the frame draws `GridLines` of the updated state |
| `Frame.Run` | main.c:27-66 | after the frames the state is `Simulate(inputs)`, with zoom in [0.5, 3]; frame k drew the grid lines of the state after its update |

## Left out

- old.c: every line of it is inside comments, so it has no code to model.
- Window and frame plumbing (`InitWindow`, `SetTargetFPS`, `WindowShouldClose`, `BeginDrawing`/`EndDrawing`, `BeginMode2D`/`EndMode2D`, `ClearBackground`, `CloseWindow`): these are raylib calls with no logic of their own.
- Input sources (`GetMousePosition`, `GetMouseWheelMove`, `IsMouseButtonDown`, `IsKeyPressed`): these become fields of `FrameInput`. The float-to-`int` cast of the wheel value happens before the model sees it.
- Drawing (`DrawLine` colours, the `Fade` blend, the help line drawn by `DrawText`): only the line endpoints are modelled.
- IEEE single-precision rounding in the zoom, target and camera-space arithmetic: every float is a real. So the zoom anchoring is exact in the model and only approximate in the program.
- `CInt.TruncToInt`: does not model the undefined behaviour of casting a float outside the `int` range, because integers are unbounded here.
- DrawDynamicGrid reduces the offset modulo the zoom-scaled spacing but steps its lines by the unscaled 40. The model keeps both as written.
