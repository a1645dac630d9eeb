/**
  The C integer semantics that DrawDynamicGrid relies on. Dafny's `.Floor`
  rounds down and its `/` and `%` are Euclidean; C's float-to-int cast
  truncates toward zero, and C's `/` truncates toward zero with `%` taking
  the sign of the dividend (section 6.5.5 of ISO/IEC 9899:1999).
  Integers are unbounded here: the undefined behaviour of a cast whose
  value does not fit in an `int` is not modelled.
*/
module CInt {

  function Abs(n: int): nat
  {
    if n < 0 then -n else n
  }

  /** The C cast `(int)x` of a finite float: drop the fractional part. */
  function TruncToInt(x: real): (n: int)
    ensures 0.0 <= x ==> n as real <= x < n as real + 1.0
    ensures x <= 0.0 ==> n as real - 1.0 < x <= n as real
  {
    if x >= 0.0 then x.Floor else -((-x).Floor)
  }

  /** C's `a / b`: the quotient rounded toward zero. */
  function CDiv(a: int, b: int): int
    requires b != 0
  {
    var q := if a >= 0 then a / Abs(b) else -((-a) / Abs(b));
    if b > 0 then q else -q
  }

  /**
    C's `a % b`: the remainder that goes with C's quotient. It is smaller
    than the divisor in magnitude and has the sign of the dividend.
  */
  function CRem(a: int, b: int): (r: int)
    requires b != 0
    ensures Abs(r) < Abs(b)
    ensures a >= 0 ==> r >= 0
    ensures a <= 0 ==> r <= 0
  {
    var m := Abs(b);
    if a >= 0 then a % m else -((-a) % m)
  }

  /** C's division identity: (a / b) * b + a % b == a. */
  lemma DivRemIdentity(a: int, b: int)
    requires b != 0
    ensures a == CDiv(a, b) * b + CRem(a, b)
  {
    var m := Abs(b);
    if a >= 0 {
      assert a == (a / m) * m + a % m;
    } else {
      assert -a == ((-a) / m) * m + (-a) % m;
    }
    if b < 0 {
      assert CDiv(a, b) * b == (-CDiv(a, b)) * m;
    }
  }

  /**
    The division identity, the bound and the sign determine the remainder:
    any r with a == q * b + r, |r| < |b| and the sign of a is CRem(a, b).
  */
  lemma CRemUnique(a: int, b: int, q: int, r: int)
    requires b != 0
    requires a == q * b + r
    requires Abs(r) < Abs(b)
    requires a >= 0 ==> r >= 0
    requires a <= 0 ==> r <= 0
    ensures r == CRem(a, b)
  {
    var q0, r0 := CDiv(a, b), CRem(a, b);
    DivRemIdentity(a, b);
    // Both remainders lie on the same side of zero, so |r - r0| < |b|;
    // and b divides r - r0, so the two are equal.
    assert (q0 - q) * b == r - r0 by {
      assert q0 * b + r0 == q * b + r;
      assert (q0 - q) * b == q0 * b - q * b;
    }
    if q0 != q {
      MultipleAtLeastDivisor(q0 - q, b);
      assert false;
    }
  }

  /** A non-zero multiple of b is at least |b| in magnitude. */
  lemma MultipleAtLeastDivisor(k: int, b: int)
    requires k != 0 && b != 0
    ensures Abs(k * b) >= Abs(b)
  {
    var m, n := Abs(k), Abs(b);
    assert Abs(k * b) == m * n by {
      if k < 0 && b < 0 { assert k * b == (-k) * (-b); }
      else if k < 0 { assert k * b == -((-k) * b); }
      else if b < 0 { assert k * b == -(k * (-b)); }
    }
    assert m * n == (m - 1) * n + n;
  }
}
