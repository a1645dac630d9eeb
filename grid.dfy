/**
  DrawDynamicGrid of main.c: the grid lines one frame draws, in world
  coordinates (the call sits between BeginMode2D and EndMode2D). The model
  returns the lines in drawing order instead of calling DrawLine; the line
  colour, a constant Fade of (100, 90, 80), is not modelled.
*/
module Grid {
  import opened Vector
  import opened Camera
  import opened CInt

  /** The unscaled distance between two neighbouring lines. */
  const Spacing: int := 40

  /** The endpoints of one DrawLine call. */
  datatype Line = Line(startX: int, startY: int, endX: int, endY: int)

  /** A vertical line at x that spans twice the screen height either way. */
  function VerticalLine(x: int): Line
  {
    Line(x, -ScreenHeight * 2, x, ScreenHeight * 2)
  }

  /** A horizontal line at y that spans twice the screen width either way. */
  function HorizontalLine(y: int): Line
  {
    Line(-ScreenWidth * 2, y, ScreenWidth * 2, y)
  }

  function VisibleLinesX(): int { ScreenWidth / Spacing }
  function VisibleLinesY(): int { ScreenHeight / Spacing }

  /** `(int)scaledSpacing`: the zoom-scaled spacing after C's cast. */
  function ScaledSpacing(zoom: real): int
  {
    TruncToInt(Spacing as real * zoom)
  }

  /** The zooms for which the `%` of DrawDynamicGrid does not divide by zero. */
  predicate Drawable(zoom: real)
  {
    ScaledSpacing(zoom) != 0
  }

  /** `cameraSpace`: the target shifted by half a screen scaled by the zoom. */
  function CameraSpace(camera: Camera2D): Vector2
  {
    Vector2(camera.target.x - (ScreenWidth / 2) as real * camera.zoom,
            camera.target.y - (ScreenHeight / 2) as real * camera.zoom)
  }

  /** `offsetX`: the truncated camera-space x reduced by C's `%`. */
  function OffsetX(camera: Camera2D): (offset: int)
    requires Drawable(camera.zoom)
    ensures Abs(offset) < Abs(ScaledSpacing(camera.zoom))
    ensures TruncToInt(CameraSpace(camera).x) >= 0 ==> offset >= 0
    ensures TruncToInt(CameraSpace(camera).x) <= 0 ==> offset <= 0
  {
    CRem(TruncToInt(CameraSpace(camera).x), ScaledSpacing(camera.zoom))
  }

  /** `offsetY`: the truncated camera-space y reduced by C's `%`. */
  function OffsetY(camera: Camera2D): (offset: int)
    requires Drawable(camera.zoom)
    ensures Abs(offset) < Abs(ScaledSpacing(camera.zoom))
    ensures TruncToInt(CameraSpace(camera).y) >= 0 ==> offset >= 0
    ensures TruncToInt(CameraSpace(camera).y) <= 0 ==> offset <= 0
  {
    CRem(TruncToInt(CameraSpace(camera).y), ScaledSpacing(camera.zoom))
  }

  /**
    The lines one call draws: none when the grid is hidden; otherwise one
    vertical line for each i in [-48, 96) at i * 40 - offsetX, followed by
    one horizontal line for each i in [-27, 54) at i * 40 - offsetY.
  */
  function GridLines(camera: Camera2D, showGrid: bool): (lines: seq<Line>)
    requires showGrid ==> Drawable(camera.zoom)
    ensures |lines| == if showGrid then 3 * VisibleLinesX() + 3 * VisibleLinesY() else 0
  {
    if !showGrid then []
    else
      var vx, vy := VisibleLinesX(), VisibleLinesY();
      var ox, oy := OffsetX(camera), OffsetY(camera);
      seq(3 * vx, k => VerticalLine((k - vx) * Spacing - ox))
      + seq(3 * vy, k => HorizontalLine((k - vy) * Spacing - oy))
  }

  /**
    DrawDynamicGrid: the two counting loops of main.c, each appending the
    line it would draw.
  */
  method DrawDynamicGrid(camera: Camera2D, showGrid: bool) returns (lines: seq<Line>)
    requires showGrid ==> Drawable(camera.zoom)
    ensures !showGrid ==> lines == []
    ensures lines == GridLines(camera, showGrid)
  {
    lines := [];
    if !showGrid {
      return;
    }
    var spacing := Spacing;
    var visibleLinesX := ScreenWidth / spacing;
    var visibleLinesY := ScreenHeight / spacing;
    var scaledSpacing := spacing as real * camera.zoom;
    var cameraSpace := CameraSpace(camera);
    var offsetX := CRem(TruncToInt(cameraSpace.x), TruncToInt(scaledSpacing));
    var offsetY := CRem(TruncToInt(cameraSpace.y), TruncToInt(scaledSpacing));
    assert visibleLinesX == VisibleLinesX() == 48 && visibleLinesY == VisibleLinesY() == 27;
    assert TruncToInt(scaledSpacing) == ScaledSpacing(camera.zoom);
    assert offsetX == OffsetX(camera) && offsetY == OffsetY(camera);

    for i := -visibleLinesX to visibleLinesX * 2
      invariant |lines| == i + visibleLinesX
      invariant forall k :: 0 <= k < |lines| ==>
        lines[k] == VerticalLine((k - visibleLinesX) * spacing - offsetX)
    {
      var x := i * spacing - offsetX;
      lines := lines + [VerticalLine(x)];
    }
    ghost var vertical := lines;

    for i := -visibleLinesY to visibleLinesY * 2
      invariant |lines| == |vertical| + i + visibleLinesY
      invariant lines[..|vertical|] == vertical
      invariant forall k :: |vertical| <= k < |lines| ==>
        lines[k] == HorizontalLine((k - |vertical| - visibleLinesY) * spacing - offsetY)
    {
      var y := i * spacing - offsetY;
      lines := lines + [HorizontalLine(y)];
    }
    ghost var horizontal := lines[|vertical|..];
    assert lines == vertical + horizontal;
    assert vertical == seq(3 * visibleLinesX, k => VerticalLine((k - visibleLinesX) * Spacing - offsetX));
    assert horizontal == seq(3 * visibleLinesY, k => HorizontalLine((k - visibleLinesY) * Spacing - offsetY));
  }

  /**
    The shape of a visible grid: 144 vertical lines, the k-th at
    (k - 48) * 40 - offsetX, then 81 horizontal lines, the k-th at
    (k - 27) * 40 - offsetY; neighbours are exactly 40 apart.
  */
  lemma GridLinesShape(camera: Camera2D)
    requires Drawable(camera.zoom)
    ensures var lines := GridLines(camera, true);
      && |lines| == 144 + 81
      && (forall k :: 0 <= k < 144 ==>
            lines[k] == VerticalLine((k - 48) * 40 - OffsetX(camera)))
      && (forall k :: 144 <= k < 144 + 81 ==>
            lines[k] == HorizontalLine((k - 144 - 27) * 40 - OffsetY(camera)))
      && (forall k :: 0 <= k < 143 ==> lines[k + 1].startX == lines[k].startX + 40)
      && (forall k :: 144 <= k < 144 + 80 ==> lines[k + 1].startY == lines[k].startY + 40)
  {
  }

  /** A hidden grid draws nothing. */
  lemma HiddenGridIsEmpty(camera: Camera2D)
    ensures GridLines(camera, false) == []
  {
  }

  /**
    Within the zoom range the cast spacing lies in [20, 120], so the `%`
    never divides by zero.
  */
  lemma ScaledSpacingInRange(zoom: real)
    requires MinZoom <= zoom <= MaxZoom
    ensures 20 <= ScaledSpacing(zoom) <= 120
    ensures Drawable(zoom)
  {
  }

  /**
    Within the zoom range each offset is smaller in magnitude than the
    cast spacing, has the sign of the truncated camera-space coordinate,
    and removes from that coordinate a whole multiple of the cast spacing.
  */
  lemma OffsetsBounded(camera: Camera2D)
    requires MinZoom <= camera.zoom <= MaxZoom
    ensures Drawable(camera.zoom)
    ensures var s, cx, cy := ScaledSpacing(camera.zoom),
                             TruncToInt(CameraSpace(camera).x), TruncToInt(CameraSpace(camera).y);
      && Abs(OffsetX(camera)) < s && Abs(OffsetY(camera)) < s
      && (cx >= 0 ==> OffsetX(camera) >= 0) && (cx <= 0 ==> OffsetX(camera) <= 0)
      && (cy >= 0 ==> OffsetY(camera) >= 0) && (cy <= 0 ==> OffsetY(camera) <= 0)
      && cx - OffsetX(camera) == CDiv(cx, s) * s
      && cy - OffsetY(camera) == CDiv(cy, s) * s
  {
    ScaledSpacingInRange(camera.zoom);
    var s := ScaledSpacing(camera.zoom);
    DivRemIdentity(TruncToInt(CameraSpace(camera).x), s);
    DivRemIdentity(TruncToInt(CameraSpace(camera).y), s);
  }
}
