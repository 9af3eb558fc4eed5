/** Small geometric helpers: a point orbiting a pivot, and the orbit the
    renderer and the demo move their first point light along. */
module MathUtils {
  import opened Geometry

  /** `rotate_around_pivot`: the point `radius` away from `pivot` at
      `angle` radians. */
  function RotateAroundPivot(m: Math, pivot: Vec2, radius: real, angle: real): Vec2 {
    Vec2(pivot.x + radius * m.cos(angle), pivot.y + radius * m.sin(angle))
  }

  /** `cos² + sin² = 1` for every angle. */
  ghost predicate ExactTrig(m: Math) {
    forall a: real :: m.cos(a) * m.cos(a) + m.sin(a) * m.sin(a) == 1.0
  }

  /** With exact trigonometry the orbit keeps its distance: the point lies
      exactly `radius` from the pivot. */
  lemma {:induction false} RotateAroundPivotKeepsRadius(m: Math, pivot: Vec2, radius: real, angle: real)
    requires ExactTrig(m)
    ensures var p := RotateAroundPivot(m, pivot, radius, angle);
            (p.x - pivot.x) * (p.x - pivot.x) + (p.y - pivot.y) * (p.y - pivot.y) == radius * radius
  {
    var c, s := m.cos(angle), m.sin(angle);
    assert c * c + s * s == 1.0;
    calc {
      (radius * c) * (radius * c) + (radius * s) * (radius * s);
      radius * radius * (c * c + s * s);
      radius * radius;
    }
  }

  /** The orbit of the first point light after `seconds` of elapsed time:
      one unit around the origin, 24 degrees per second, lifted onto the
      plane `z = y`. */
  function OrbitPosition(m: Math, seconds: real): (p: Vec3)
    ensures p.z == p.y
    ensures Vec2(p.x, p.y) == RotateAroundPivot(m, ZERO2, 1.0, m.toRadians(seconds * 24.0))
  {
    var xy := RotateAroundPivot(m, ZERO2, 1.0, m.toRadians(seconds * 24.0));
    Vec3(xy.x, xy.y, xy.y)
  }

  /** With exact trigonometry the orbiting light stays on the unit circle
      of its x/y coordinates. */
  lemma OrbitOnUnitCircle(m: Math, seconds: real)
    requires ExactTrig(m)
    ensures var p := OrbitPosition(m, seconds); p.x * p.x + p.y * p.y == 1.0 && p.z == p.y
  {
    RotateAroundPivotKeepsRadius(m, ZERO2, 1.0, m.toRadians(seconds * 24.0));
  }
}
