/** The slope the avatar climbs and the boulders roll down: two end points, optional
    Bezier control points, and the straight chord's unit vector, left-hand normal and
    length, which the game computes once with a square root and keeps as constants. */
module Geometry {
  import opened Common

  datatype Vec = Vec(x: real, y: real)

  function Add(a: Vec, b: Vec): Vec { Vec(a.x + b.x, a.y + b.y) }
  function Sub(a: Vec, b: Vec): Vec { Vec(a.x - b.x, a.y - b.y) }
  function Scale(a: Vec, k: real): Vec { Vec(a.x * k, a.y * k) }
  function Dot(a: Vec, b: Vec): real { a.x * b.x + a.y * b.y }

  /** Squared Euclidean distance; compared against a squared radius sum instead of
      taking a square root. */
  function DistSq(a: Vec, b: Vec): (r: real)
    ensures r >= 0.0
  {
    var d := Sub(a, b);
    assert d.x * d.x >= 0.0 && d.y * d.y >= 0.0;
    Dot(d, d)
  }

  /** Comparing a distance `d` with a radius sum `R` is the same as comparing their
      squares, provided the sum is not negative. */
  lemma SquaredCompare(d: real, R: real)
    requires d >= 0.0
    ensures d <= R <==> R >= 0.0 && d * d <= R * R
  {
    if R >= 0.0 && d > R {
      var gap, sum := d - R, d + R;
      assert gap > 0.0 && sum > 0.0;
      assert gap * sum > 0.0;
      assert d * d == R * R + gap * sum;
    }
  }

  datatype CurveType = Quadratic | Cubic

  datatype Slope = Slope(
    bottom: Vec,
    top: Vec,
    control: Vec,
    control1: Option<Vec>,
    control2: Option<Vec>,
    control3: Option<Vec>,
    unit: Vec,
    normal: Vec,
    length: real,
    isCurved: bool,
    curveType: Option<CurveType>)

  /** What normalising the chord guarantees: `unit` has length one and spans the chord
      in `length` steps, and `normal` is `unit` turned a quarter to the left. */
  ghost predicate ValidSlope(g: Slope) {
    && g.length > 0.0
    && Scale(g.unit, g.length) == Sub(g.top, g.bottom)
    && Dot(g.unit, g.unit) == 1.0
    && g.normal == Vec(-g.unit.y, g.unit.x)
  }

  /** The point at progress `s` on the straight chord (the boulders' path): exactly
      `bottom` at or below 0 and exactly `top` at or above 1. */
  function ChordPoint(g: Slope, s: real): (p: Vec)
    ensures s <= 0.0 ==> p == g.bottom
    ensures ValidSlope(g) && s >= 1.0 ==> p == g.top
  {
    Add(g.bottom, Scale(g.unit, g.length * Clamp01(s)))
  }

  /** The point at progress `s` on the avatar's path: a cubic Bezier through
      `bottom, control1, control2, top` when the slope is curved, typed cubic and all
      three cubic control points are present; otherwise a quadratic Bezier through
      `bottom, control, top` when it is curved; otherwise the chord. Every form starts
      exactly at `bottom` and ends exactly at `top`. */
  function CurvePoint(g: Slope, s: real): (p: Vec)
    ensures s <= 0.0 ==> p == g.bottom
    ensures ValidSlope(g) && s >= 1.0 ==> p == g.top
  {
    var t := Clamp01(s);
    if g.isCurved then
      if g.curveType == Some(Cubic) && g.control1.Some? && g.control2.Some? && g.control3.Some? then
        CubicAt(g.bottom, g.control1.value, g.control2.value, g.top, t)
      else
        QuadraticAt(g.bottom, g.control, g.top, t)
    else
      ChordPoint(g, s)
  }

  /** The cubic Bezier with Bernstein weights: it starts at `p0`, ends at `p3`, and
      the weights sum to one, so four equal points give that point back. */
  function CubicAt(p0: Vec, p1: Vec, p2: Vec, p3: Vec, t: real): (p: Vec)
    ensures t == 0.0 ==> p == p0
    ensures t == 1.0 ==> p == p3
    ensures p0 == p1 == p2 == p3 ==> p == p0
  {
    var u := 1.0 - t;
    var a, b, c, d := u * u * u, 3.0 * u * u * t, 3.0 * u * t * t, t * t * t;
    assert a + b + c + d == (u + t) * (u + t) * (u + t);
    Vec(a * p0.x + b * p1.x + c * p2.x + d * p3.x,
        a * p0.y + b * p1.y + c * p2.y + d * p3.y)
  }

  /** The quadratic Bezier: it starts at `p0`, ends at `p2`, and its weights sum to
      one, so three equal points give that point back. */
  function QuadraticAt(p0: Vec, p1: Vec, p2: Vec, t: real): (p: Vec)
    ensures t == 0.0 ==> p == p0
    ensures t == 1.0 ==> p == p2
    ensures p0 == p1 == p2 ==> p == p0
  {
    var u := 1.0 - t;
    var a, b, c := u * u, 2.0 * u * t, t * t;
    assert a + b + c == (u + t) * (u + t);
    Vec(a * p0.x + b * p1.x + c * p2.x,
        a * p0.y + b * p1.y + c * p2.y)
  }

  /** The path only ever sees clamped progress: beyond either end it is at that end. */
  lemma CurveClamps(g: Slope, s: real)
    ensures CurvePoint(g, s) == CurvePoint(g, Clamp01(s))
  {
  }

  /** The cubic form passes through `bottom, control1, control2, top` only: the third
      cubic control point has to be present but never moves the curve. */
  lemma CubicIgnoresControl3(g: Slope, c3: Vec, s: real)
    requires g.control3.Some?
    ensures CurvePoint(g.(control3 := Some(c3)), s) == CurvePoint(g, s)
  {
  }

  /** Progress of a world point: its offset from `bottom` projected on the chord,
      as a fraction of the chord's length, clamped into [0, 1]. */
  function ProjectS(g: Slope, p: Vec): (s: real)
    requires g.length > 0.0
    ensures 0.0 <= s <= 1.0
    ensures Dot(Sub(p, g.bottom), g.unit) <= 0.0 ==> s == 0.0
    ensures Dot(Sub(p, g.bottom), g.unit) >= g.length ==> s == 1.0
    ensures 0.0 <= Dot(Sub(p, g.bottom), g.unit) <= g.length ==> s * g.length == Dot(Sub(p, g.bottom), g.unit)
  {
    var along := Dot(Sub(p, g.bottom), g.unit);
    QuotientBounds(along, g.length);
    Clamp01(along / g.length)
  }

  /** Dividing by a positive length: the quotient times the length gives the
      dividend back, its sign is the dividend's, and it reaches 1 exactly when the
      dividend reaches the length. */
  lemma QuotientBounds(x: real, len: real)
    requires len > 0.0
    ensures (x / len) * len == x
    ensures x <= 0.0 ==> x / len <= 0.0
    ensures x >= len ==> x / len >= 1.0
  {
    var q := x / len;
    assert q * len == x;
    assert q > 0.0 ==> q * len > 0.0;
    assert q < 1.0 ==> (1.0 - q) * len > 0.0;
  }

  /** A chord point moved along the normal, relative to `bottom`, in coordinates. */
  lemma ChordOffset(g: Slope, s: real, off: real)
    requires g.normal == Vec(-g.unit.y, g.unit.x)
    ensures var u, k := g.unit, g.length * Clamp01(s);
      Sub(Add(ChordPoint(g, s), Scale(g.normal, off)), g.bottom) == Vec(u.x * k - u.y * off, u.y * k + u.x * off)
  {
  }

  /** Projection undoes the chord: the chord point at progress `s`, moved any distance
      along the normal, projects back to the clamped `s`. */
  lemma ProjectChordPoint(g: Slope, s: real, off: real)
    requires ValidSlope(g)
    ensures ProjectS(g, Add(ChordPoint(g, s), Scale(g.normal, off))) == Clamp01(s)
  {
    var c := Clamp01(s);
    var u, L := g.unit, g.length;
    var d := Sub(Add(ChordPoint(g, s), Scale(g.normal, off)), g.bottom);
    ChordOffset(g, s, off);
    calc {
      Dot(d, u);
      (u.x * (L * c) - u.y * off) * u.x + (u.y * (L * c) + u.x * off) * u.y;
      (L * c) * (u.x * u.x + u.y * u.y);
      { assert u.x * u.x + u.y * u.y == Dot(u, u) == 1.0; }
      L * c;
    }
    assert (L * c) / L == c;
  }
}
