/** `BoundingBox::Transform`: the axis-aligned box around the image of a box. */
module Transform {
  import opened Geometry

  /** The columns of an affine 4x4 matrix. */
  datatype Affine = Affine(x: Vec3, y: Vec3, z: Vec3, t: Vec3) {
    function Apply(p: Vec3): Vec3 {
      x.Times(p.x).Plus(y.Times(p.y)).Plus(z.Times(p.z)).Plus(t)
    }
  }

  function Lower(a: Vec3, b: Vec3): Vec3 { Vec3(Min(a.x, b.x), Min(a.y, b.y), Min(a.z, b.z)) }
  function Upper(a: Vec3, b: Vec3): Vec3 { Vec3(Max(a.x, b.x), Max(a.y, b.y), Max(a.z, b.z)) }

  /** The least box around the images of the eight corners, column by column. */
  function Transformed(b: Box, m: Affine): Box {
    var lo, hi := b.GetMin(), b.GetMax();
    var xa, xb := m.x.Times(lo.x), m.x.Times(hi.x);
    var ya, yb := m.y.Times(lo.y), m.y.Times(hi.y);
    var za, zb := m.z.Times(lo.z), m.z.Times(hi.z);
    FromCorners(Lower(xa, xb).Plus(Lower(ya, yb)).Plus(Lower(za, zb)).Plus(m.t),
                Upper(xa, xb).Plus(Upper(ya, yb)).Plus(Upper(za, zb)).Plus(m.t))
  }

  class BoundingBox {
    var center: Vec3
    var extent: Vec3

    constructor (min: Vec3, max: Vec3)
      ensures Value() == FromCorners(min, max)
      ensures Value().GetMin() == min && Value().GetMax() == max
    {
      center, extent := max.Plus(min).Half(), max.Minus(min).Half();
    }

    function Value(): Box
      reads this
    {
      Box(center, extent)
    }

    /** `*this = BoundingBox(newMin, newMax)`. */
    method Transform(m: Affine)
      modifies this
      ensures Value() == Transformed(old(Value()), m)
    {
      var min, max := center.Minus(extent), center.Plus(extent);
      var xa, xb := m.x.Times(min.x), m.x.Times(max.x);
      var xMin, xMax := Lower(xa, xb), Upper(xa, xb);
      var ya, yb := m.y.Times(min.y), m.y.Times(max.y);
      var yMin, yMax := Lower(ya, yb), Upper(ya, yb);
      var za, zb := m.z.Times(min.z), m.z.Times(max.z);
      var zMin, zMax := Lower(za, zb), Upper(za, zb);
      var box := new BoundingBox(xMin.Plus(yMin).Plus(zMin).Plus(m.t), xMax.Plus(yMax).Plus(zMax).Plus(m.t));
      center, extent := box.center, box.extent;
    }
  }

  /** One of the eight corners: the far side on the axes where the flag is set. */
  function Corner(b: Box, x: bool, y: bool, z: bool): Vec3 {
    var lo, hi := b.GetMin(), b.GetMax();
    Vec3(if x then hi.x else lo.x, if y then hi.y else lo.y, if z then hi.z else lo.z)
  }

  /** The two bounds of the new box, before they are turned into centre and extent. */
  lemma Bounds(b: Box, m: Affine)
    ensures var lo, hi := b.GetMin(), b.GetMax();
            Transformed(b, m).GetMin() == Lower(m.x.Times(lo.x), m.x.Times(hi.x)).Plus(Lower(m.y.Times(lo.y),
              m.y.Times(hi.y)))
                                          .Plus(Lower(m.z.Times(lo.z), m.z.Times(hi.z))).Plus(m.t)
    ensures var lo, hi := b.GetMin(), b.GetMax();
            Transformed(b, m).GetMax() == Upper(m.x.Times(lo.x), m.x.Times(hi.x)).Plus(Upper(m.y.Times(lo.y),
              m.y.Times(hi.y)))
                                          .Plus(Upper(m.z.Times(lo.z), m.z.Times(hi.z))).Plus(m.t)
  {
    hide Vec3.Times;
  }

  lemma ProductOrder(k: real, a: real, b: real)
    requires a <= b
    ensures if k >= 0.0 then Product(k, a) <= Product(k, b) else Product(k, b) <= Product(k, a)
  {
    assert k * b == k * a + k * (b - a);
  }

  /** A multiple of a value between two others lies between their multiples. */
  lemma TimesBetween(k: real, lo: real, v: real, hi: real)
    requires lo <= v <= hi
    ensures Min(Product(k, lo), Product(k, hi)) <= Product(k, v) <= Max(Product(k, lo), Product(k, hi))
  {
    hide Product;
    ProductOrder(k, lo, v);
    ProductOrder(k, v, hi);
  }

  lemma ColumnBetween(c: Vec3, lo: real, v: real, hi: real)
    requires lo <= v <= hi
    ensures Lower(c.Times(lo), c.Times(hi)).AtMost(c.Times(v))
    ensures c.Times(v).AtMost(Upper(c.Times(lo), c.Times(hi)))
  {
    hide Product;
    TimesBetween(c.x, lo, v, hi);
    TimesBetween(c.y, lo, v, hi);
    TimesBetween(c.z, lo, v, hi);
  }

  /** Sound: every point of the old box maps into the new one. */
  lemma TransformIsSound(b: Box, m: Affine, p: Vec3)
    requires b.Covers(p)
    ensures Transformed(b, m).Covers(m.Apply(p))
  {
    hide Vec3.Times, Lower, Upper, Transformed;
    var lo, hi := b.GetMin(), b.GetMax();
    Bounds(b, m);
    ColumnBetween(m.x, lo.x, p.x, hi.x);
    ColumnBetween(m.y, lo.y, p.y, hi.y);
    ColumnBetween(m.z, lo.z, p.z, hi.z);
  }

  /** Whether the far end of an axis has the smaller multiple. */
  predicate Falls(k: real, lo: real, hi: real) { Product(k, hi) < Product(k, lo) }

  /** The corner at which a linear form with these coefficients is least, or greatest. */
  function Extreme(b: Box, k: Vec3, least: bool): Vec3 {
    var lo, hi := b.GetMin(), b.GetMax();
    Corner(b, Falls(k.x, lo.x, hi.x) == least, Falls(k.y, lo.y, hi.y) == least, Falls(k.z, lo.z, hi.z) == least)
  }

  /** Tight: each of the six bounds is attained by the image of a corner. */
  lemma TransformIsTight(b: Box, m: Affine)
    ensures m.Apply(Extreme(b, Vec3(m.x.x, m.y.x, m.z.x), true)).x == Transformed(b, m).GetMin().x
    ensures m.Apply(Extreme(b, Vec3(m.x.y, m.y.y, m.z.y), true)).y == Transformed(b, m).GetMin().y
    ensures m.Apply(Extreme(b, Vec3(m.x.z, m.y.z, m.z.z), true)).z == Transformed(b, m).GetMin().z
    ensures m.Apply(Extreme(b, Vec3(m.x.x, m.y.x, m.z.x), false)).x == Transformed(b, m).GetMax().x
    ensures m.Apply(Extreme(b, Vec3(m.x.y, m.y.y, m.z.y), false)).y == Transformed(b, m).GetMax().y
    ensures m.Apply(Extreme(b, Vec3(m.x.z, m.y.z, m.z.z), false)).z == Transformed(b, m).GetMax().z
  {
    hide Transformed, Product;
    Bounds(b, m);
  }

  /** The new box is the least one around the image: a box contains it exactly when it covers the whole image. */
  lemma TransformIsHull(b: Box, m: Affine, q: Box)
    requires b.NonNegative()
    ensures q.Contains(Transformed(b, m)) <==> forall p :: b.Covers(p) ==> q.Covers(m.Apply(p))
  {
    hide Transformed, Affine.Apply, Extreme;
    var r := Transformed(b, m);
    forall p | b.Covers(p)
      ensures r.Covers(m.Apply(p))
    {
      TransformIsSound(b, m, p);
    }
    assert r.NonNegative() by { TransformIsSound(b, m, b.center); }
    if forall p :: b.Covers(p) ==> q.Covers(m.Apply(p)) {
      TransformIsTight(b, m);
      forall k, least
        ensures b.Covers(Extreme(b, k, least))
      {
        ExtremeIsInside(b, k, least);
      }
    } else {
      ContainsIsInclusion(q, r);
    }
  }

  lemma ExtremeIsInside(b: Box, k: Vec3, least: bool)
    requires b.NonNegative()
    ensures b.Covers(Extreme(b, k, least))
  {
    hide Falls;
  }
}
