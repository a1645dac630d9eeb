/**
  The screen and zoom constants of main.c and the part of raylib's Camera2D
  that the demo uses. main.c creates the camera with `Camera2D camera = {0}`
  and never sets `offset` or `rotation`, so both stay zero; the model keeps
  only `target` and `zoom`, and raylib's GetScreenToWorld2D reduces to
  world = screen / zoom + target for such a camera.
*/
module Camera {
  import opened Vector

  const ScreenWidth: int := 1920
  const ScreenHeight: int := 1080
  const MaxZoom: real := 3.0
  const MinZoom: real := 0.5

  /** raylib's Camera2D with offset (0, 0) and rotation 0. */
  datatype Camera2D = Camera2D(target: Vector2, zoom: real)

  /**
    GetScreenToWorld2D for a camera with zero offset and zero rotation;
    mapping the result back to the screen gives the original point.
  */
  function ScreenToWorld(p: Vector2, camera: Camera2D): (w: Vector2)
    requires camera.zoom != 0.0
    ensures WorldToScreen(w, camera) == p
  {
    var z := camera.zoom;
    assert p.x / z * z == p.x && p.y / z * z == p.y;
    Vector2(p.x / z + camera.target.x, p.y / z + camera.target.y)
  }

  /** GetWorldToScreen2D for the same kind of camera: the inverse transform. */
  function WorldToScreen(w: Vector2, camera: Camera2D): Vector2
  {
    Vector2((w.x - camera.target.x) * camera.zoom, (w.y - camera.target.y) * camera.zoom)
  }

  /** World to screen and back returns the original world point. */
  lemma WorldScreenRoundTrip(w: Vector2, camera: Camera2D)
    requires camera.zoom != 0.0
    ensures ScreenToWorld(WorldToScreen(w, camera), camera) == w
  {
    var z := camera.zoom;
    assert (w.x - camera.target.x) * z / z == w.x - camera.target.x;
    assert (w.y - camera.target.y) * z / z == w.y - camera.target.y;
  }
}
