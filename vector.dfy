/**
  The small vector and scalar helpers defined at the bottom of main.c:
  Vector2SubtractCustom, Vector2AddCustom, Vector2ScaleCustom and Clamp.
  Single-precision floats are modelled as mathematical reals.
*/
module Vector {

  /** raylib's Vector2: a point or a displacement in screen or world space. */
  datatype Vector2 = Vector2(x: real, y: real)

  /** Vector2SubtractCustom: the component-wise difference v1 - v2. */
  function Subtract(v1: Vector2, v2: Vector2): Vector2
  {
    Vector2(v1.x - v2.x, v1.y - v2.y)
  }

  /** Vector2AddCustom: the component-wise sum v1 + v2. */
  function Add(v1: Vector2, v2: Vector2): Vector2
  {
    Vector2(v1.x + v2.x, v1.y + v2.y)
  }

  /** Vector2ScaleCustom: both components multiplied by the same factor. */
  function Scale(v: Vector2, scale: real): Vector2
  {
    Vector2(v.x * scale, v.y * scale)
  }

  /** Adding back what was subtracted gives the original point. */
  lemma AddUndoesSubtract(a: Vector2, b: Vector2)
    ensures Add(b, Subtract(a, b)) == a
    ensures Subtract(Add(a, b), b) == a
  {
  }

  /** Scaling by s and then by 1/s is the identity. */
  lemma ScaleByInverse(v: Vector2, s: real)
    requires s != 0.0
    ensures Scale(Scale(v, s), 1.0 / s) == v
  {
    assert v.x * s * (1.0 / s) == v.x * (s * (1.0 / s));
    assert v.y * s * (1.0 / s) == v.y * (s * (1.0 / s));
  }

  /** Scaling distributes over a difference. */
  lemma ScaleSubtract(a: Vector2, b: Vector2, s: real)
    ensures Scale(Subtract(a, b), s) == Subtract(Scale(a, s), Scale(b, s))
  {
    assert (a.x - b.x) * s == a.x * s - b.x * s;
    assert (a.y - b.y) * s == a.y * s - b.y * s;
  }

  /** The distance between two reals. */
  function Distance(a: real, b: real): real
  {
    if a < b then b - a else a - b
  }

  /**
    Clamp(value, min, max): main.c checks the lower bound first, then the
    upper one. When min <= max the result is the point of [min, max]
    closest to value; an in-range value is returned unchanged.
  */
  function Clamp(value: real, min: real, max: real): (r: real)
    ensures min <= max ==> min <= r <= max
    ensures min <= value <= max ==> r == value
    ensures r == value || r == min || r == max
    ensures value < min ==> r == min
    ensures !(value < min) && value > max ==> r == max
  {
    if value < min then min
    else if value > max then max
    else value
  }

  /** On a non-empty range the clamped value is the nearest point of the range. */
  lemma ClampIsNearest(value: real, min: real, max: real, w: real)
    requires min <= w <= max
    ensures Distance(value, Clamp(value, min, max)) <= Distance(value, w)
  {
  }

  /** Clamping twice is the same as clamping once. */
  lemma ClampIdempotent(value: real, min: real, max: real)
    requires min <= max
    ensures Clamp(Clamp(value, min, max), min, max) == Clamp(value, min, max)
  {
  }

  /** Clamp preserves the order of its inputs. */
  lemma ClampMonotonic(v1: real, v2: real, min: real, max: real)
    requires min <= max
    requires v1 <= v2
    ensures Clamp(v1, min, max) <= Clamp(v2, min, max)
  {
  }
}
