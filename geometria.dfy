/** Plane geometry used by the launch controller, over `real` instead of `float`.
    Directions are kept symbolic: a `Polar(angle, length)` stands for
    `Vector2.Right.Rotated(angle) * length`, so no trigonometry is computed. */
module Geometria {

  datatype Vec = Vec(x: real, y: real)

  const Zero: Vec := Vec(0.0, 0.0)

  /** `Mathf.Pi` (as a single-precision literal). */
  const Pi: real := 3.1415927

  /** `Vector2.Right.Rotated(angle) * length`, left unevaluated. */
  datatype Polar = Polar(angle: real, length: real)

  /** The same direction turned half a revolution (`Rotated(angle + Pi)`). */
  function Reversed(p: Polar): Polar
  {
    Polar(p.angle + Pi, p.length)
  }

  /** `q` lies on the closed interval between `p` and `r`, whichever is smaller. */
  predicate Between(p: real, q: real, r: real)
  {
    (p <= q <= r) || (r <= q <= p)
  }

  /** `Vector2.Lerp`: `a + (b - a) * t`. For `t` in [0, 1] the result lies in the
      axis-aligned box spanned by `a` and `b`, at `a` for 0 and at `b` for 1. */
  function Lerp(a: Vec, b: Vec, t: real): (r: Vec)
    ensures 0.0 <= t <= 1.0 ==> Between(a.x, r.x, b.x) && Between(a.y, r.y, b.y)
    ensures t == 0.0 ==> r == a
    ensures t == 1.0 ==> r == b
  {
    LerpCoordinate(a.x, b.x, t);
    LerpCoordinate(a.y, b.y, t);
    Vec(a.x + (b.x - a.x) * t, a.y + (b.y - a.y) * t)
  }

  lemma LerpCoordinate(p: real, q: real, t: real)
    ensures 0.0 <= t <= 1.0 ==> Between(p, p + (q - p) * t, q)
  {
    if 0.0 <= t <= 1.0 {
      var k := (q - p) * t;
      assert q - p - k == (q - p) * (1.0 - t);
      if p <= q {
        NonNegativeProduct(q - p, t);
        NonNegativeProduct(q - p, 1.0 - t);
      } else {
        NonNegativeProduct(p - q, t);
        NonNegativeProduct(p - q, 1.0 - t);
      }
    }
  }

  lemma NonNegativeProduct(x: real, y: real)
    requires 0.0 <= x && 0.0 <= y
    ensures 0.0 <= x * y
  {
  }
}
