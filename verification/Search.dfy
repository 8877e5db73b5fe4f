/** What the queries find, compared with a plain scan over all objects. */
module Search {
  import opened Geometry
  import opened Layout
  import opened Objects
  import opened Outcomes
  import opened Sequences
  import opened Soundness

  /** Whether every node from `p` down to `q` is built and, below `p`, meets the query. */
  ghost predicate Reached(root: Box, t: Spots, query: Query, p: Path, q: Path) {
    forall i :: |p| <= i <= |q| ==>
      q[..i] in t && t[q[..i]].built && (i == |p| || query.Meets(RegionAt(root, q[..i])))
  }

  /** What a query of the node at `p` is to report from its own list and its first `k` children. */
  ghost function Hits(f: Facts, t: Spots, query: Query, types: seq<nat>, p: Path, k: nat): set<GameObject> {
    set q, o | q in t && p <= q && o in t[q].objects && (q == p || q[|p|] < k)
               && Accepts(f, query, types, o) && Reached(f.root, t, query, p, q) :: o
  }

  /** The sequence lists the set, each element once. */
  ghost predicate Lists(s: seq<GameObject>, all: set<GameObject>) {
    NoDup(s) && Elems(s) == all
  }

  lemma ListsConcat(a: seq<GameObject>, b: seq<GameObject>, s: set<GameObject>, t: set<GameObject>)
    requires Lists(a, s) && Lists(b, t) && s !! t
    ensures Lists(a + b, s + t)
  {
    assert forall x :: x in b ==> x in t && x !in s;
    NoDupJoin(a, b);
  }

  /** The scan of a list reports its accepted objects, once each. */
  lemma ScanLists(f: Facts, query: Query, types: seq<nat>, list: seq<GameObject>)
    requires NoDup(list)
    ensures Lists(Scan(f, query, types, list), set o | o in list && Accepts(f, query, types, o))
  {
    hide Accepts;
    WithinMembers(list, set o | o in list && Accepts(f, query, types, o));
  }

  lemma OwnHits(f: Facts, t: Spots, query: Query, types: seq<nat>, p: Path)
    requires p in t && t[p].built
    ensures Hits(f, t, query, types, p, 0) == set o | o in t[p].objects && Accepts(f, query, types, o)
  {
    hide Accepts;
    assert p[..|p|] == p && p <= p;
    var own := set o | o in t[p].objects && Accepts(f, query, types, o);
    assert Reached(f.root, t, query, p, p);
    forall q | q in t && p <= q && q != p
      ensures 0 <= q[|p|]
    {
      var c: Corner := q[|p|];
    }
  }

  /** A path below a child is reached from the parent if it is from the child, and the child meets the query. */
  lemma ReachedBelow(root: Box, t: Spots, query: Query, p: Path, k: Corner, q: Path)
    requires p in t && t[p].built && q in t && p + [k] <= q
    ensures Reached(root, t, query, p, q) <==>
            Reached(root, t, query, p + [k], q) && query.Meets(RegionAt(root, p + [k]))
  {
    hide RegionAt, Query.Meets;
    UnderCorner(p, k, q);
    assert q[..|p|] == p && q[..|p| + 1] == p + [k];
  }

  /** One more child adds what it reports, if it is there and meets the query. */
  lemma HitsStep(f: Facts, t: Spots, query: Query, types: seq<nat>, p: Path, k: Corner)
    requires Sound(f.root, t) && p in t && t[p].built
    ensures Hits(f, t, query, types, p, k + 1) ==
            Hits(f, t, query, types, p, k) +
            if p + [k] in t && query.Meets(RegionAt(f.root, p + [k]))
            then Hits(f, t, query, types, p + [k], 8) else {}
    ensures Hits(f, t, query, types, p, k) !! Hits(f, t, query, types, p + [k], 8)
  {
    hide Accepts, Reached, RegionAt, Query.Meets, Lives, Queued;
    var r := p + [k];
    forall q | q in t && p <= q && q != p && q[|p|] == k
      ensures r <= q && r in t
      ensures Reached(f.root, t, query, p, q) <==>
              Reached(f.root, t, query, r, q) && query.Meets(RegionAt(f.root, r))
    {
      UnderCorner(p, k, q);
      PrefixIn(f.root, t, q, |r|);
      assert q[..|r|] == r;
      ReachedBelow(f.root, t, query, p, k, q);
    }
    forall q | q in t && r <= q
      ensures p <= q && q != p && q[|p|] == k
    {
      UnderCorner(p, k, q);
    }
  }

  /** A query reports, once each, the accepted objects whose nodes it reaches. */
  lemma {:induction false} FoundLists(f: Facts, t: Spots, query: Query, types: seq<nat>, p: Path)
    requires Sound(f.root, t) && p in t
    ensures Lists(Found(f, t, query, types, p), Hits(f, t, query, types, p, 8))
    decreases Level(RegionAt(f.root, p)), 9
  {
    hide Sound, Accepts, Lists, RegionAt;
    if t[p].built {
      FoundUpToLists(f, t, query, types, p, 8);
    } else {
      UnbuiltHits(f, t, query, types, p);
    }
  }

  lemma UnbuiltHits(f: Facts, t: Spots, query: Query, types: seq<nat>, p: Path)
    requires p in t && !t[p].built
    ensures Hits(f, t, query, types, p, 8) == {} && Lists([], {})
  {
    hide Accepts, RegionAt, Query.Meets;
    assert p[..|p|] == p;
    forall q | q in t && p <= q
      ensures !Reached(f.root, t, query, p, q)
    {
      assert q[..|p|] == p;
    }
  }

  lemma {:induction false} FoundUpToLists(f: Facts, t: Spots, query: Query, types: seq<nat>, p: Path, c: nat)
    requires Sound(f.root, t) && p in t && t[p].built && c <= 8
    ensures Lists(FoundUpTo(f, t, query, types, p, c), Hits(f, t, query, types, p, c))
    decreases Level(RegionAt(f.root, p)), c
  {
    hide Unique, Lives, Queued, Accepts, Hits, Lists, Found, Query.Meets, RegionAt;
    if c == 0 {
      OwnHits(f, t, query, types, p);
      SoundLists(f.root, t, p);
      ScanLists(f, query, types, t[p].objects);
    } else {
      var r := p + [c - 1];
      FoundUpToLists(f, t, query, types, p, c - 1);
      HitsStep(f, t, query, types, p, c - 1);
      RegionBelow(f.root, p, c - 1);
      if r in t && query.Meets(RegionAt(f.root, r)) {
        FoundLists(f, t, query, types, r);
        ListsConcat(FoundUpTo(f, t, query, types, p, c - 1), Found(f, t, query, types, r),
                    Hits(f, t, query, types, p, c - 1), Hits(f, t, query, types, r, 8));
      } else {
        assert FoundUpTo(f, t, query, types, p, c) == FoundUpTo(f, t, query, types, p, c - 1);
        assert Hits(f, t, query, types, p, c) == Hits(f, t, query, types, p, c - 1);
      }
    }
  }

  // ---------- objects in place ----------

  /** Every object below the root lies in its node's region, and no box has a negative extent. */
  ghost predicate Located(f: Facts, t: Spots) {
    forall q, o :: q in t && o in t[q].objects ==>
      f.BoxOf(o).NonNegative() && (q != [] ==> RegionAt(f.root, q).Contains(f.BoxOf(o)))
  }

  /** A query that meets an object in its place meets every region on the way to it. */
  lemma LocatedReached(f: Facts, t: Spots, query: Query, q: Path, o: GameObject)
    requires f.root.NonNegative() && Located(f, t) && q in t && o in t[q].objects && query.Meets(f.BoxOf(o))
    ensures Reached(f.root, t, query, [], q) <==> PathBuilt(t, q)
  {
    hide RegionAt, Box.Contains, Box.Intersects, Sphere.Intersects;
    forall i: nat | 0 < i <= |q|
      ensures query.Meets(RegionAt(f.root, q[..i]))
    {
      AncestorContains(f.root, q, i, f.BoxOf(o));
      match query
      case InRegion(box) => IntersectsGrows(box, RegionAt(f.root, q[..i]), f.BoxOf(o));
      case InRadius(sphere) => SphereIntersectsGrows(sphere, RegionAt(f.root, q[..i]), f.BoxOf(o));
    }
  }

  /** In a located tree a query misses an accepted object only through an unbuilt node. */
  lemma HitsAreBuilt(f: Facts, t: Spots, query: Query, types: seq<nat>, q: Path, o: GameObject)
    requires Sound(f.root, t) && f.root.NonNegative() && Located(f, t)
    requires q in t && o in t[q].objects && Accepts(f, query, types, o)
    ensures o in Hits(f, t, query, types, [], 8) <==> PathBuilt(t, q)
  {
    hide Branched, Lives, Queued, RegionAt, Query.Meets, Located;
    LocatedReached(f, t, query, q, o);
    assert [] <= q;
    if q != [] { var c: Corner := q[0]; }
    if o in Hits(f, t, query, types, [], 8) {
      var r :| r in t && o in t[r].objects && Reached(f.root, t, query, [], r);
      assert r == q;
    }
  }

  /** Every accepted object is below built nodes only. */
  ghost predicate NoneHidden(f: Facts, t: Spots, query: Query, types: seq<nat>) {
    forall q, o :: q in t && o in t[q].objects && Accepts(f, query, types, o) ==> PathBuilt(t, q)
  }

  /** The accepted objects are all reported exactly when each is below built nodes only. */
  lemma HitsAreAll(f: Facts, t: Spots, query: Query, types: seq<nat>)
    requires Sound(f.root, t) && f.root.NonNegative() && Located(f, t)
    ensures var hits, wanted := Hits(f, t, query, types, [], 8), set o | o in All(t) && Accepts(f, query, types, o);
            hits <= wanted && (wanted <= hits <==> NoneHidden(f, t, query, types))
  {
    hide Sound, RegionAt, Accepts, Located, PathBuilt, Reached;
    var hits, wanted := Hits(f, t, query, types, [], 8), set o | o in All(t) && Accepts(f, query, types, o);
    forall q, o | q in t && o in t[q].objects && Accepts(f, query, types, o)
      ensures o in wanted && (o in hits <==> PathBuilt(t, q))
    {
      HitsAreBuilt(f, t, query, types, q, o);
    }
  }

  /**
    A query of the whole tree agrees with the plain scan over all objects exactly when every accepted
    object is below built nodes only.
   */
  lemma QueryIsScan(f: Facts, t: Spots, query: Query, types: seq<nat>, all: seq<GameObject>)
    requires Sound(f.root, t) && f.root.NonNegative() && Located(f, t) && Lists(all, All(t))
    ensures multiset(Found(f, t, query, types, [])) == multiset(Scan(f, query, types, all)) <==>
            NoneHidden(f, t, query, types)
  {
    hide Unique, Lives, Queued, RegionAt, Accepts, Located, Found, Scan, PathBuilt, NoDup, Hits, All;
    var found, scan := Found(f, t, query, types, []), Scan(f, query, types, all);
    var hits, wanted := Hits(f, t, query, types, [], 8), set o | o in All(t) && Accepts(f, query, types, o);
    FoundLists(f, t, query, types, []);
    ScanLists(f, query, types, all);
    SamePermute(found, scan);
    HitsAreAll(f, t, query, types);
    assert (set o | o in all && Accepts(f, query, types, o)) == wanted;
    SameSet(found, scan, hits, wanted);
  }

  lemma SameSet(a: seq<GameObject>, b: seq<GameObject>, s: set<GameObject>, t: set<GameObject>)
    requires Elems(a) == s && Elems(b) == t && s <= t
    ensures (forall x :: x in a ==> x in b) && (forall x :: x in b ==> x in a) <==> t <= s
  {
    assert forall x :: x in a ==> x in s && x in t && x in b;
  }

  /** With every node built the query is the plain scan. */
  lemma BuiltQueryIsScan(f: Facts, t: Spots, query: Query, types: seq<nat>, all: seq<GameObject>)
    requires Sound(f.root, t) && f.root.NonNegative() && Located(f, t) && Lists(all, All(t))
    requires forall q :: q in t ==> t[q].built
    ensures multiset(Found(f, t, query, types, [])) == multiset(Scan(f, query, types, all))
  {
    hide Unique, Lives, Queued, RegionAt, Accepts, Located, Found, Scan, Lists, All;
    BuiltPaths(f.root, t);
    QueryIsScan(f, t, query, types, all);
  }

  lemma BuiltPaths(root: Box, t: Spots)
    requires Branched(root, t) && forall q :: q in t ==> t[q].built
    ensures forall q :: q in t ==> PathBuilt(t, q)
  {
    hide RegionAt, Tiny;
    forall q, i: nat | q in t && i <= |q|
      ensures q[..i] in t
    {
      PrefixIn(root, t, q, i);
    }
  }

  /** When nothing is dirty and no box is flat, every object is where queries look for it. */
  lemma CleanIsLocated(f: Facts, t: Spots)
    requires InPlace(f, t, {})
    requires forall o :: o in All(t) ==> f.BoxOf(o).NonNegative() && !f.BoxOf(o).IsPoint()
    ensures Located(f, t)
  {
    hide RegionAt, Box.Contains, Box.IsPoint, Box.NonNegative;
    forall q, o | q in t && o in t[q].objects
      ensures o in All(t)
    {}
  }

  // ---------- queries in plain terms ----------

  /** A point of what is queried: of the region, or of the ball. */
  predicate Asks(query: Query, p: Vec3) {
    match query
    case InRegion(box) => box.Covers(p)
    case InRadius(sphere) => 0.0 <= sphere.radius && Distance2(p, sphere.center) <= sphere.radius * sphere.radius
  }

  /** Some point of the box is. */
  ghost predicate Touches(query: Query, b: Box) { exists p :: b.Covers(p) && Asks(query, p) }

  /** Not a region of negative extent, which holds no point. */
  predicate Proper(query: Query) { query.InRegion? ==> query.box.NonNegative() }

  lemma MeetsIsTouching(query: Query, b: Box)
    requires b.NonNegative() && Proper(query)
    ensures query.Meets(b) <==> Touches(query, b)
  {
    hide Box.Intersects, Sphere.Intersects, Box.Covers, Distance2;
    match query
    case InRegion(box) =>
      IntersectsIsCommonPoint(box, b);
      assert forall p :: Asks(query, p) <==> box.Covers(p);
    case InRadius(sphere) => SphereIntersectsIsCommonPoint(sphere, b);
  }

  /**
    Of the objects in their places a query reports, once each, exactly those below built nodes that are of one of the
    types, if any are given, and share a point with what is queried.
   */
  lemma FoundIff(f: Facts, t: Spots, query: Query, types: seq<nat>, q: Path, o: GameObject)
    requires Sound(f.root, t) && f.root.NonNegative() && Located(f, t) && Proper(query)
    requires q in t && o in t[q].objects
    ensures o in Found(f, t, query, types, []) <==>
            (types == [] || o.noun in types) && Touches(query, f.BoxOf(o)) && PathBuilt(t, q)
    ensures NoDup(Found(f, t, query, types, []))
  {
    hide Sound, RegionAt, Query.Meets, Touches, PathBuilt, Reached, Found, NoDup;
    SoundBranches(f.root, t);
    FoundLists(f, t, query, types, []);
    MeetsIsTouching(query, f.BoxOf(o));
    if Accepts(f, query, types, o) { HitsAreBuilt(f, t, query, types, q, o); }
  }

  /** Wherever the objects are, nothing else is reported. */
  lemma FoundOnly(f: Facts, t: Spots, query: Query, types: seq<nat>, o: GameObject)
    requires Sound(f.root, t) && o in Found(f, t, query, types, [])
    ensures o in All(t) && (types == [] || o.noun in types)
    ensures Proper(query) && f.BoxOf(o).NonNegative() ==> Touches(query, f.BoxOf(o))
  {
    hide Sound, RegionAt, Query.Meets, Touches, Reached, Found, NoDup;
    SoundBranches(f.root, t);
    FoundLists(f, t, query, types, []);
    if Proper(query) && f.BoxOf(o).NonNegative() { MeetsIsTouching(query, f.BoxOf(o)); }
  }
}
