/**
 Facts about the linear interpolation `a + (b - a) * t` shared by the
 estimator's linear marker update and the exact-quantile reference.
 */
module Interpolation {

  /** The point a fraction `t` of the way from `a` to `b`. */
  function Lerp(a: real, b: real, t: real): (v: real)
    ensures 0.0 < t < 1.0 && a <= b ==> a <= v <= b
    ensures 0.0 < t < 1.0 && b <= a ==> b <= v <= a
  {
    // both branches compute the same value; the first one only brings in `Between`
    if 0.0 < t < 1.0 then Between(a, b, t); a + (b - a) * t
    else a + (b - a) * t
  }

  /** With `t` in (0, 1) the interpolant lies between `a` and `b`, and
      strictly when they differ. */
  lemma Between(a: real, b: real, t: real)
    requires 0.0 < t < 1.0
    ensures a <= b ==> a <= a + (b - a) * t <= b
    ensures b <= a ==> b <= a + (b - a) * t <= a
    ensures a != b ==> a + (b - a) * t != a && a + (b - a) * t != b
  {
    var x := b - a;
    var y := x * t;
    assert a + (b - a) * t == a + y;
    assert x - y == x * (1.0 - t);
    if x > 0.0 {
      assert 0.0 < y && 0.0 < x * (1.0 - t);
    } else if x < 0.0 {
      assert y < 0.0 && x * (1.0 - t) < 0.0;
    }
  }

  /** Along an ascending segment the interpolant grows with `t`. */
  lemma Monotone(a: real, b: real, t1: real, t2: real)
    requires a <= b && t1 <= t2
    ensures a + (b - a) * t1 <= a + (b - a) * t2
  {
    var x := b - a;
    assert (b - a) * t2 - (b - a) * t1 == x * (t2 - t1);
    assert 0.0 <= x * (t2 - t1);
  }
}
