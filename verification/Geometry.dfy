/** Vectors, axis-aligned boxes and spheres, with `real` standing for the source's `float`. */
module Geometry {

  datatype Vec3 = Vec3(x: real, y: real, z: real) {
    function Plus(v: Vec3): Vec3 { Vec3(x + v.x, y + v.y, z + v.z) }
    function Minus(v: Vec3): Vec3 { Vec3(x - v.x, y - v.y, z - v.z) }
    function Times(k: real): Vec3 { Vec3(Product(x, k), Product(y, k), Product(z, k)) }
    function Half(): Vec3 { Vec3(x * 0.5, y * 0.5, z * 0.5) }
    function Dot(v: Vec3): real { Product(x, v.x) + Product(y, v.y) + Product(z, v.z) }
    function Magnitude(): Vec3 { Vec3(Abs(x), Abs(y), Abs(z)) }
    predicate AtMost(v: Vec3) { x <= v.x && y <= v.y && z <= v.z }
  }

  /** Named so that proofs can treat products as atoms. */
  function Product(a: real, b: real): real { a * b }
  function Abs(r: real): real { if r < 0.0 then -r else r }
  function Min(a: real, b: real): real { if a <= b then a else b }
  function Max(a: real, b: real): real { if a <= b then b else a }
  function Clamp(r: real, lo: real, hi: real): real { Min(Max(r, lo), hi) }

  /** The square of `glm::length(a - b)`. */
  function Distance2(a: Vec3, b: Vec3): real { a.Minus(b).Dot(a.Minus(b)) }

  datatype Box = Box(center: Vec3, extent: Vec3) {
    function GetMin(): Vec3 { center.Minus(extent) }
    function GetMax(): Vec3 { center.Plus(extent) }

    predicate IsPoint() { extent.x == 0.0 || extent.y == 0.0 || extent.z == 0.0 }

    predicate Contains(b: Box) {
      && Abs(center.x - b.center.x) <= extent.x - b.extent.x
      && Abs(center.y - b.center.y) <= extent.y - b.extent.y
      && Abs(center.z - b.center.z) <= extent.z - b.extent.z
    }

    predicate Intersects(b: Box) {
      && Abs(center.x - b.center.x) <= extent.x + b.extent.x
      && Abs(center.y - b.center.y) <= extent.y + b.extent.y
      && Abs(center.z - b.center.z) <= extent.z + b.extent.z
    }

    /** The closed set of points between the box's two corners. */
    predicate Covers(p: Vec3) { GetMin().AtMost(p) && p.AtMost(GetMax()) }

    predicate NonNegative() { Vec3(0.0, 0.0, 0.0).AtMost(extent) }
  }

  function FromCorners(min: Vec3, max: Vec3): Box {
    Box(max.Plus(min).Half(), max.Minus(min).Half())
  }

  datatype Sphere = Sphere(center: Vec3, radius: real) {
    function Closest(b: Box): Vec3 {
      var lo, hi := b.GetMin(), b.GetMax();
      Vec3(Clamp(center.x, lo.x, hi.x), Clamp(center.y, lo.y, hi.y), Clamp(center.z, lo.z, hi.z))
    }

    /** `glm::length(closest - center) <= radius`, squared on both sides. */
    predicate Intersects(b: Box) {
      0.0 <= radius && Distance2(Closest(b), center) <= radius * radius
    }
  }

  // ---------- what the box tests mean as sets of points ----------

  /** `Contains` is inclusion of the point sets. */
  lemma ContainsIsInclusion(r: Box, b: Box)
    requires b.NonNegative()
    ensures r.Contains(b) <==> forall p :: b.Covers(p) ==> r.Covers(p)
  {
    if forall p :: b.Covers(p) ==> r.Covers(p) {
      assert b.Covers(b.GetMin()) && b.Covers(b.GetMax());
      assert r.Covers(b.GetMin()) && r.Covers(b.GetMax());
    }
  }

  /** `Intersects` is a common point. */
  lemma IntersectsIsCommonPoint(r: Box, b: Box)
    requires r.NonNegative() && b.NonNegative()
    ensures r.Intersects(b) <==> exists p :: r.Covers(p) && b.Covers(p)
  {
    if r.Intersects(b) {
      var lo, other := r.GetMin(), b.GetMin();
      var p := Vec3(Max(lo.x, other.x), Max(lo.y, other.y), Max(lo.z, other.z));
      assert r.Covers(p) && b.Covers(p);
    }
  }

  lemma ClampIsNearest(c: real, lo: real, hi: real, p: real)
    requires lo <= p <= hi
    ensures lo <= Clamp(c, lo, hi) <= hi
    ensures Product(Clamp(c, lo, hi) - c, Clamp(c, lo, hi) - c) <= Product(p - c, p - c)
  {
    var d, e := Abs(Clamp(c, lo, hi) - c), Abs(p - c);
    assert 0.0 <= d <= e;
    assert d * d <= e * d <= e * e;
  }

  /** The clamped point is the point of the box nearest to the sphere's centre. */
  lemma ClosestIsNearest(s: Sphere, b: Box, p: Vec3)
    requires b.Covers(p)
    ensures b.Covers(s.Closest(b))
    ensures Distance2(s.Closest(b), s.center) <= Distance2(p, s.center)
  {
    hide Clamp, Min, Max, Product;
    var lo, hi := b.GetMin(), b.GetMax();
    ClampIsNearest(s.center.x, lo.x, hi.x, p.x);
    ClampIsNearest(s.center.y, lo.y, hi.y, p.y);
    ClampIsNearest(s.center.z, lo.z, hi.z, p.z);
  }

  /** The sphere test is a common point of ball and box. */
  lemma SphereIntersectsIsCommonPoint(s: Sphere, b: Box)
    requires b.NonNegative()
    ensures s.Intersects(b) <==>
            exists p :: b.Covers(p) && 0.0 <= s.radius && Distance2(p, s.center) <= s.radius * s.radius
  {
    hide Distance2, Sphere.Closest;
    ClosestIsNearest(s, b, b.center);
    if p :| b.Covers(p) && 0.0 <= s.radius && Distance2(p, s.center) <= s.radius * s.radius {
      ClosestIsNearest(s, b, p);
    }
  }

  // ---------- the lemmas the octree needs ----------

  /** A region that meets a box also meets every box around it. */
  lemma IntersectsGrows(query: Box, outer: Box, inner: Box)
    requires outer.Contains(inner) && query.Intersects(inner)
    ensures query.Intersects(outer)
  {}

  lemma SphereIntersectsGrows(query: Sphere, outer: Box, inner: Box)
    requires inner.NonNegative() && outer.Contains(inner) && query.Intersects(inner)
    ensures query.Intersects(outer)
  {
    ClosestIsNearest(query, inner, inner.center);
    ClosestIsNearest(query, outer, query.Closest(inner));
  }

  /** The eight octants of a region, in the source's corner order. */
  function Octant(region: Box, corner: nat): Box
    requires corner < 8
  {
    var lo, hi := region.GetMin(), region.GetMax();
    var mid := lo.Plus(region.extent);
    match corner
    case 0 => FromCorners(lo, mid)
    case 1 => FromCorners(Vec3(mid.x, lo.y, lo.z), Vec3(hi.x, mid.y, mid.z))
    case 2 => FromCorners(Vec3(mid.x, lo.y, mid.z), Vec3(hi.x, mid.y, hi.z))
    case 3 => FromCorners(Vec3(lo.x, lo.y, mid.z), Vec3(mid.x, mid.y, hi.z))
    case 4 => FromCorners(Vec3(lo.x, mid.y, lo.z), Vec3(mid.x, hi.y, mid.z))
    case 5 => FromCorners(Vec3(mid.x, mid.y, lo.z), Vec3(hi.x, hi.y, mid.z))
    case 6 => FromCorners(mid, hi)
    case _ => FromCorners(Vec3(lo.x, mid.y, mid.z), Vec3(mid.x, hi.y, hi.z))
  }

  /** Whether a corner is on the far side of the centre, axis by axis. */
  predicate HighX(corner: nat) { corner in {1, 2, 5, 6} }
  predicate HighY(corner: nat) { corner >= 4 }
  predicate HighZ(corner: nat) { corner in {2, 3, 6, 7} }

  function Shifted(center: real, extent: real, high: bool): real {
    if high then center + extent * 0.5 else center - extent * 0.5
  }

  /** Each octant has half the region's extents and its own combination of sides. */
  lemma OctantShape(region: Box, corner: nat)
    requires corner < 8
    ensures Octant(region, corner).extent == region.extent.Half()
    ensures Octant(region, corner).center ==
            Vec3(Shifted(region.center.x, region.extent.x, HighX(corner)),
                 Shifted(region.center.y, region.extent.y, HighY(corner)),
                 Shifted(region.center.z, region.extent.z, HighZ(corner)))
  {}

  /** A box that fits an octant fits the whole region. */
  lemma OctantInside(region: Box, corner: nat, b: Box)
    requires corner < 8 && region.NonNegative() && Octant(region, corner).Contains(b)
    ensures region.Contains(b)
  {
    OctantShape(region, corner);
  }

  /** Octants overlap only in faces: a box with volume fits at most one of them. */
  lemma OctantUnique(region: Box, c: nat, d: nat, b: Box)
    requires c < 8 && d < 8 && b.NonNegative() && !b.IsPoint()
    requires Octant(region, c).Contains(b) && Octant(region, d).Contains(b)
    ensures c == d
  {
    OctantShape(region, c);
    OctantShape(region, d);
    assert HighX(c) == HighX(d) && HighY(c) == HighY(d) && HighZ(c) == HighZ(d);
  }

  /** Every point of a region lies in some octant. */
  lemma OctantsCover(region: Box, p: Vec3)
    requires region.Covers(p)
    ensures exists c: nat :: c < 8 && Octant(region, c).Covers(p)
  {
    hide Octant;
    var mid := region.center;
    var c: nat :=
      if p.y <= mid.y then
        if p.x <= mid.x then (if p.z <= mid.z then 0 else 3) else (if p.z <= mid.z then 1 else 2)
      else
        if p.x <= mid.x then (if p.z <= mid.z then 4 else 7) else (if p.z <= mid.z then 5 else 6);
    OctantShape(region, c);
    assert Octant(region, c).Covers(p);
  }

  const SMALLEST_EXTENT := 1.0

  /** Regions this small are never divided. */
  predicate Tiny(region: Box) {
    && region.extent.x <= SMALLEST_EXTENT
    && region.extent.y <= SMALLEST_EXTENT
    && region.extent.z <= SMALLEST_EXTENT
  }

  /** The measure that falls at every division: the whole part of the largest extent. */
  function Level(region: Box): nat {
    var m := Max(region.extent.x, Max(region.extent.y, region.extent.z));
    if m <= SMALLEST_EXTENT then 0 else m.Floor
  }

  lemma LevelFalls(region: Box, corner: nat)
    requires corner < 8 && !Tiny(region)
    ensures Level(Octant(region, corner)) < Level(region)
  {
    OctantShape(region, corner);
    var m := Max(region.extent.x, Max(region.extent.y, region.extent.z));
    var h := Max(region.extent.x * 0.5, Max(region.extent.y * 0.5, region.extent.z * 0.5));
    assert h == m * 0.5;
  }
}
