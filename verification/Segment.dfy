/** The two segment routines of `nMathUtil`. Lengths are compared by their squares. */
module Segment {
  import opened Geometry

  /** The point of the segment from `a` to `b` at parameter `s`. */
  function PointAt(a: Vec3, b: Vec3, s: real): Vec3 { a.Plus(b.Minus(a).Times(s)) }

  function ClosestPointOnLine(point: Vec3, a: Vec3, b: Vec3): Vec3 {
    var ab := b.Minus(a);
    var abLen2 := ab.Dot(ab);
    if abLen2 <= 0.0 then a
    else
      var t := point.Minus(a).Dot(ab);
      if t <= 0.0 then a
      else if t >= abLen2 then b
      else a.Plus(ab.Times(t / abLen2))
  }

  /** The square of `DistanceToLine`. */
  function DistanceToLine2(point: Vec3, a: Vec3, b: Vec3): real {
    var ab := b.Minus(a);
    var abLen2 := ab.Dot(ab);
    if abLen2 <= 0.0 then Distance2(point, a)
    else
      var t := point.Minus(a).Dot(ab);
      if t <= 0.0 then Distance2(point, a)
      else if t >= abLen2 then Distance2(point, b)
      else Distance2(point, a.Plus(ab.Times(t / abLen2)))
  }

  /** The parameter of the closest point. */
  function Nearest(point: Vec3, a: Vec3, b: Vec3): (s: real)
    ensures 0.0 <= s <= 1.0
  {
    var ab := b.Minus(a);
    var abLen2 := ab.Dot(ab);
    var t := point.Minus(a).Dot(ab);
    if abLen2 <= 0.0 || t <= 0.0 then 0.0
    else if t >= abLen2 then 1.0
    else
      Fraction(t, abLen2);
      t / abLen2
  }

  lemma Fraction(t: real, l: real)
    requires 0.0 < t < l
    ensures 0.0 < t / l < 1.0 && (t / l) * l == t
  {
    var q := t / l;
    assert q * l == t;
    if q - 1.0 >= 0.0 { NotNegative(q - 1.0, l); }
    if -q >= 0.0 { NotNegative(-q, l); }
  }

  lemma NotNegative(a: real, b: real)
    requires a >= 0.0 && b >= 0.0
    ensures Product(a, b) >= 0.0 && (a > 0.0 && b > 0.0 ==> Product(a, b) > 0.0)
  {}

  lemma NearestIsClosest(point: Vec3, a: Vec3, b: Vec3)
    ensures ClosestPointOnLine(point, a, b) == PointAt(a, b, Nearest(point, a, b))
    ensures DistanceToLine2(point, a, b) == Distance2(point, ClosestPointOnLine(point, a, b))
    ensures var l, t := b.Minus(a).Dot(b.Minus(a)), point.Minus(a).Dot(b.Minus(a));
            l > 0.0 ==> Nearest(point, a, b) == if t <= 0.0 then 0.0 else if t >= l then 1.0 else t / l
  {}

  lemma SquareExpands(u: real, v: real, s: real)
    ensures Product(u - Product(s, v), u - Product(s, v))
         == Product(u, u) - 2.0 * Product(s, Product(u, v)) + Product(Product(s, s), Product(v, v))
  {}

  lemma Distributes(k: real, a: real, b: real, c: real)
    ensures Product(k, a + b + c) == Product(k, a) + Product(k, b) + Product(k, c)
  {}

  lemma Commutes(a: real, b: real)
    ensures Product(a, b) == Product(b, a)
  {}

  /** The squared distance to a point of the segment is quadratic in its parameter. */
  lemma DistanceAt(point: Vec3, a: Vec3, b: Vec3, s: real)
    ensures var ab, ap := b.Minus(a), point.Minus(a);
            Distance2(point, PointAt(a, b, s)) == ap.Dot(ap) + Curve(ab.Dot(ab), ap.Dot(ab), s)
  {
    hide Product;
    var ab, ap := b.Minus(a), point.Minus(a);
    OffsetIs(point, a, b, s);
    SquareExpands(ap.x, ab.x, s);
    SquareExpands(ap.y, ab.y, s);
    SquareExpands(ap.z, ab.z, s);
    Distributes(s, Product(ap.x, ab.x), Product(ap.y, ab.y), Product(ap.z, ab.z));
    Distributes(Product(s, s), Product(ab.x, ab.x), Product(ab.y, ab.y), Product(ab.z, ab.z));
  }

  lemma OffsetIs(point: Vec3, a: Vec3, b: Vec3, s: real)
    ensures var ab, ap := b.Minus(a), point.Minus(a);
            point.Minus(PointAt(a, b, s)) == Vec3(ap.x - Product(s, ab.x), ap.y - Product(s, ab.y), ap.z - Product(s,
              ab.z))
  {
    hide Product;
    Commutes(s, b.x - a.x);
    Commutes(s, b.y - a.y);
    Commutes(s, b.z - a.z);
  }

  /** The part of that quadratic which depends on the parameter. */
  function Curve(l: real, t: real, s: real): real { Product(Product(s, s), l) - 2.0 * Product(s, t) }

  lemma CurveAtZero(l: real, t: real, s: real)
    requires l > 0.0 && t <= 0.0 && s >= 0.0
    ensures Curve(l, t, 0.0) <= Curve(l, t, s) && (s != 0.0 ==> Curve(l, t, 0.0) < Curve(l, t, s))
  {
    var up, over := Product(Product(s, s), l), Product(s, -t);
    SquarePositive(s);
    NotNegative(Product(s, s), l);
    NotNegative(s, -t);
    assert Curve(l, t, s) == up + 2.0 * over && Curve(l, t, 0.0) == 0.0;
    Grows(0.0, Curve(l, t, s), up, over);
  }

  lemma CurveAtOne(l: real, t: real, s: real)
    requires 0.0 < l <= t && s <= 1.0
    ensures Curve(l, t, 1.0) <= Curve(l, t, s) && (s != 1.0 ==> Curve(l, t, 1.0) < Curve(l, t, s))
  {
    var r := 1.0 - s;
    var up, over := Product(Product(r, r), l), Product(r, t - l);
    SquarePositive(r);
    NotNegative(Product(r, r), l);
    NotNegative(r, t - l);
    assert Curve(l, t, s) - Curve(l, t, 1.0) == up + 2.0 * over;
    Grows(Curve(l, t, 1.0), Curve(l, t, s), up, over);
  }

  lemma CurveInside(l: real, t: real, n: real, s: real)
    requires l > 0.0 && n * l == t
    ensures Curve(l, t, n) <= Curve(l, t, s) && (s != n ==> Curve(l, t, n) < Curve(l, t, s))
  {
    var d := s - n;
    var up := Product(Product(d, d), l);
    SquarePositive(d);
    NotNegative(Product(d, d), l);
    assert Curve(l, t, s) - Curve(l, t, n) == up;
    Grows(Curve(l, t, n), Curve(l, t, s), up, 0.0);
  }

  lemma Grows(a: real, b: real, up: real, over: real)
    requires b - a == up + 2.0 * over && up >= 0.0 && over >= 0.0
    ensures a <= b && (up > 0.0 ==> a < b)
  {}

  /** Over [0, 1] the quadratic is least where the routine looks, and only there. */
  lemma LeastOnSegment(l: real, t: real, n: real, s: real)
    requires l > 0.0 && 0.0 <= s <= 1.0
    requires n == if t <= 0.0 then 0.0 else if t >= l then 1.0 else t / l
    ensures Curve(l, t, n) <= Curve(l, t, s) && (s != n ==> Curve(l, t, n) < Curve(l, t, s))
  {
    hide Curve;
    if t <= 0.0 {
      CurveAtZero(l, t, s);
    } else if t >= l {
      CurveAtOne(l, t, s);
    } else {
      Fraction(t, l);
      CurveInside(l, t, n, s);
    }
  }

  lemma SquarePositive(r: real)
    ensures Product(r, r) >= 0.0 && (r != 0.0 ==> Product(r, r) > 0.0)
  {
    if r >= 0.0 {
      NotNegative(r, r);
    } else {
      NotNegative(-r, -r);
      assert Product(-r, -r) == Product(r, r);
    }
  }

  lemma NoSquares(x: real, y: real, z: real)
    ensures Product(x, x) + Product(y, y) + Product(z, z) >= 0.0
    ensures Product(x, x) + Product(y, y) + Product(z, z) == 0.0 ==> x == 0.0 && y == 0.0 && z == 0.0
  {
    hide Product;
    SquarePositive(x);
    SquarePositive(y);
    SquarePositive(z);
  }

  lemma FlatMeansEqual(a: Vec3, b: Vec3)
    ensures b.Minus(a).Dot(b.Minus(a)) >= 0.0
    ensures b.Minus(a).Dot(b.Minus(a)) == 0.0 ==> a == b
  {
    NoSquares(b.x - a.x, b.y - a.y, b.z - a.z);
  }

  /**
    `ClosestPointOnLine` is a point of the segment, no point of the segment is nearer, every other one is
    farther away, and `DistanceToLine` is the distance to it. This includes the segment with equal ends.
   */
  lemma ClosestIsOptimal(point: Vec3, a: Vec3, b: Vec3, s: real)
    requires 0.0 <= s <= 1.0
    ensures exists n :: 0.0 <= n <= 1.0 && ClosestPointOnLine(point, a, b) == PointAt(a, b, n)
    ensures DistanceToLine2(point, a, b) == Distance2(point, ClosestPointOnLine(point, a, b))
    ensures DistanceToLine2(point, a, b) <= Distance2(point, PointAt(a, b, s))
    ensures PointAt(a, b, s) != ClosestPointOnLine(point, a, b) ==>
              DistanceToLine2(point, a, b) < Distance2(point, PointAt(a, b, s))
  {
    hide ClosestPointOnLine, DistanceToLine2, Distance2, Vec3.Dot, Vec3.Minus, Nearest, PointAt;
    var ab, ap := b.Minus(a), point.Minus(a);
    var n := Nearest(point, a, b);
    NearestIsClosest(point, a, b);
    DistanceAt(point, a, b, s);
    DistanceAt(point, a, b, n);
    FlatMeansEqual(a, b);
    if a == b {
      OnePoint(a, s);
      OnePoint(a, n);
    } else {
      LeastOnSegment(ab.Dot(ab), ap.Dot(ab), n, s);
    }
  }

  lemma OnePoint(a: Vec3, s: real)
    ensures PointAt(a, a, s) == a
  {}
}
