/**
 * Plane and space vectors over the reals. The game's `f32` vectors are modelled
 * exactly; square roots (`length`, `distance`, `normalize`) are taken through a
 * length function supplied by the caller and characterised by `IsLength`.
 */
module Geometry {

  datatype Vec2 = Vec2(x: real, y: real) {
    function Add(o: Vec2): Vec2 { Vec2(x + o.x, y + o.y) }
    function Sub(o: Vec2): Vec2 { Vec2(x - o.x, y - o.y) }
    function Scale(k: real): Vec2 { Vec2(k * x, k * y) }
    function Neg(): Vec2 { Vec2(-x, -y) }
    /** `Vec2::perp`: the vector turned a quarter turn counter-clockwise. */
    function Perp(): Vec2 { Vec2(-y, x) }
  }

  datatype Vec3 = Vec3(x: real, y: real, z: real) {
    /** `translation.xz()`: the position on the ground plane. */
    function Xz(): Vec2 { Vec2(x, z) }
  }

  const ZERO: Vec2 := Vec2(0.0, 0.0)
  const UNIT_X: Vec2 := Vec2(1.0, 0.0)

  /** `length_squared`. */
  function NormSq(v: Vec2): (r: real)
    ensures r >= 0.0
    ensures v == ZERO ==> r == 0.0
  {
    SquareNonNegative(v.x);
    SquareNonNegative(v.y);
    assert v == ZERO ==> v.x * v.x == 0.0 * 0.0 && v.y * v.y == 0.0 * 0.0;
    v.x * v.x + v.y * v.y
  }

  /** `distance_squared`. */
  function DistSq(a: Vec2, b: Vec2): (r: real)
    ensures r >= 0.0
    ensures a == b ==> r == 0.0
  {
    var d := a.Sub(b);
    assert a == b ==> d == ZERO;
    NormSq(d)
  }

  lemma SquareNonNegative(r: real)
    ensures r * r >= 0.0
  {
    if r < 0.0 {
      var s := -r;
      assert r * r == s * s;
    }
  }

  /** egui's `lerp(a..=b, t)`: `(1 - t) * a + t * b`. */
  function Lerp(a: real, b: real, t: real): real
  {
    (1.0 - t) * a + t * b
  }

  /** Scaling by a non-negative factor keeps order. */
  lemma MulMonotone(t: real, a: real, b: real)
    requires 0.0 <= t && a <= b
    ensures t * a <= t * b
  {
    var d := b - a;
    assert t * d >= 0.0;
    assert t * b == t * a + t * d;
  }

  /** Interpolating upwards with `t` in `[0, 1]` stays within `[a, b]`. */
  lemma LerpRising(a: real, b: real, t: real)
    requires a <= b && 0.0 <= t <= 1.0
    ensures a <= Lerp(a, b, t) <= b
  {
    MulMonotone(t, a, b);
    MulMonotone(1.0 - t, a, b);
  }

  /** Interpolating downwards with `t` in `[0, 1]` stays within `[b, a]`. */
  lemma LerpFalling(a: real, b: real, t: real)
    requires b <= a && 0.0 <= t <= 1.0
    ensures b <= Lerp(a, b, t) <= a
  {
    LerpRising(b, a, 1.0 - t);
    assert Lerp(b, a, 1.0 - t) == Lerp(a, b, t);
  }

  /** For `t` in `[0, 1]` the interpolation stays between its end points, whichever is larger. */
  lemma LerpBetween(a: real, b: real, t: real)
    requires 0.0 <= t <= 1.0
    ensures a <= Lerp(a, b, t) <= b || b <= Lerp(a, b, t) <= a
  {
    if a <= b {
      LerpRising(a, b, t);
    } else {
      LerpFalling(a, b, t);
    }
  }

  /** The interpolation starts at `a` and ends at `b`. */
  lemma LerpEnds(a: real, b: real)
    ensures Lerp(a, b, 0.0) == a
    ensures Lerp(a, b, 1.0) == b
  {
  }

  /**
   * What the game assumes of `length`: non-negative, squaring to `NormSq`, and
   * zero only for the zero vector.
   */
  ghost predicate IsLength(len: Vec2 -> real)
  {
    forall v :: len(v) >= 0.0 && len(v) * len(v) == NormSq(v) && (len(v) > 0.0 <==> v != ZERO)
  }

  /**
   * `normalize_or(fallback)`: `v` scaled by the reciprocal of its length when
   * that length is positive, `fallback` otherwise.
   */
  function NormalizeOr(len: Vec2 -> real, v: Vec2, fallback: Vec2): (u: Vec2)
    ensures len(v) <= 0.0 ==> u == fallback
  {
    if len(v) > 0.0 then v.Scale(1.0 / len(v)) else fallback
  }

  /** With a true length, normalising gives the fallback exactly for zero, and otherwise a unit vector along `v`. */
  lemma NormalizeOrUnit(len: Vec2 -> real, v: Vec2, fallback: Vec2)
    requires IsLength(len)
    ensures v == ZERO ==> NormalizeOr(len, v, fallback) == fallback
    ensures v != ZERO ==> NormSq(NormalizeOr(len, v, fallback)) == 1.0
    ensures v != ZERO ==> exists k: real :: k > 0.0 && NormalizeOr(len, v, fallback) == v.Scale(k)
  {
    var l := len(v);
    assert l >= 0.0 && l * l == NormSq(v) && (l > 0.0 <==> v != ZERO);
    if v != ZERO {
      NormalizeNonZero(v, l, NormalizeOr(len, v, fallback));
    }
  }

  lemma NormalizeNonZero(v: Vec2, l: real, u: Vec2)
    requires l > 0.0 && l * l == NormSq(v) && u == v.Scale(1.0 / l)
    ensures NormSq(u) == 1.0
    ensures exists k: real :: k > 0.0 && u == v.Scale(k)
  {
    UnitScale(v, l);
  }

  lemma UnitScale(v: Vec2, l: real)
    requires l > 0.0 && l * l == NormSq(v)
    ensures NormSq(v.Scale(1.0 / l)) == 1.0
    ensures 1.0 / l > 0.0
  {
    var k := 1.0 / l;
    calc {
      NormSq(v.Scale(k));
      (k * v.x) * (k * v.x) + (k * v.y) * (k * v.y);
      (k * k) * (v.x * v.x + v.y * v.y);
      (k * k) * (l * l);
      (k * l) * (k * l);
      1.0;
    }
  }
}
