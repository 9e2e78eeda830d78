/**
  The two pieces of Unity's `Mathf` that the fades use, over the reals.
  Floating-point rounding is not modelled.
 */
module Mathf {

  /** `Mathf.Clamp01`: the value limited to the unit interval. */
  function Clamp01(x: real): (r: real)
    ensures 0.0 <= r <= 1.0
    ensures r == x <==> 0.0 <= x <= 1.0
  {
    if x < 0.0 then 0.0 else if x > 1.0 then 1.0 else x
  }

  /** `Mathf.Lerp(a, b, x)`: the point a fraction `Clamp01(x)` of the way from `a` to `b`. */
  function Lerp(a: real, b: real, x: real): (r: real)
    ensures a <= b ==> a <= r <= b
    ensures b <= a ==> b <= r <= a
    ensures x <= 0.0 ==> r == a
    ensures 1.0 <= x ==> r == b
    // short of the end of the interval, the target is reached only from the target itself
    ensures x < 1.0 ==> (r == b <==> a == b)
  {
    var k, d := Clamp01(x), b - a;
    var p := d * k;
    Scaled(d, k, p);
    a + p
  }

  /** A fraction `k` of a distance `d`, `p`, lies between 0 and `d`, and falls short of `d` unless `k` is 1 or `d` is 0. */
  lemma Scaled(d: real, k: real, p: real)
    requires 0.0 <= k <= 1.0 && p == d * k
    ensures 0.0 <= d ==> 0.0 <= p <= d
    ensures d <= 0.0 ==> d <= p <= 0.0
    ensures k < 1.0 ==> (p == d <==> d == 0.0)
  {
    var e := 1.0 - k;
    assert d - p == d * e;
    if 0.0 <= d {
      assert 0.0 <= d * k && 0.0 <= d * e;
    } else {
      assert d * k <= 0.0 && d * e <= 0.0;
    }
  }
}
