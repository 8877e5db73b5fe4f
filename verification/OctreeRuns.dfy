/** Runs of the octree as the object manager drives it: objects are enqueued, the root is updated, queries are asked. */
module OctreeRuns {
  import opened Conservation
  import opened Division
  import opened Geometry
  import opened Layout
  import opened Moving
  import opened Objects
  import opened Octree
  import opened Outcomes
  import opened Search
  import opened Sequences
  import opened Settling
  import opened Soundness
  import opened Updates
  import opened Visits
  import opened Wrappers

  /** All of a list that is new to the tree, one after the other. */
  method EnqueueAll(tree: OctTree, list: seq<GameObject>)
    requires tree.Attached() && tree.path == [] && tree.space.Valid() && tree.queue == [] && NoDup(list)
    requires Elems(list) !! All(tree.space.spots)
    modifies tree`queue, tree`ready, tree.space`spots, tree.space`known
    ensures tree.space.Valid() && tree.space.known == old(tree.space.known) + Elems(list)
    ensures tree.space.spots ==
            old(tree.space.spots)[[] := old(tree.Value()).(queue := list, ready := old(tree.ready) && list == [])]
  {
    hide Space.Valid, Space.Shape, Space.Contents, Sound, RegionAt, All, NoDup;
    Mirrors(tree);
    ghost var t := tree.space.spots;
    for index := 0 to |list|
      invariant tree.space.Valid() && tree.space.known == old(tree.space.known) + Elems(list[..index])
      invariant tree.space.spots ==
                t[[] := t[[]].(queue := list[..index], ready := t[[]].ready && index == 0)]
    {
      assert list[..index + 1] == list[..index] + [list[index]];
      NotBefore(list, index);
      SameAll(t, tree.space.spots, []);
      Mirrors(tree);
      tree.Enqueue(list[index]);
      Mirrors(tree);
    }
    assert list[..|list|] == list;
  }

  /** A new tree whose queue is the list. */
  method Filled(region: Box, list: seq<GameObject>) returns (tree: OctTree)
    requires region.NonNegative() && NoDup(list)
    ensures fresh(tree) && fresh(tree.space) && fresh(tree.space.nodes.Values)
    ensures tree.Attached() && tree.path == [] && tree.space.Valid() && tree.space.known == Elems(list)
    ensures tree.space.root == tree.region == region && tree.queue == list && !tree.built
    ensures tree.space.spots == map[[] := NewSpot([]).(queue := list)]
  {
    hide Space.Valid, Space.Shape, Space.Contents, NoDup;
    tree := new OctTree(region);
    Mirrors(tree);
    NoneListed(tree.space.spots);
    EnqueueAll(tree, list);
    Mirrors(tree);
  }

  lemma Mirrors(tree: OctTree)
    requires tree.space.Valid() && tree.Attached()
    ensures tree.space.Mirror() && tree.path in tree.space.spots && tree.space.spots[tree.path] == tree.Value()
    ensures tree.region == RegionAt(tree.space.root, tree.path) && Sound(tree.space.root, tree.space.spots)
  {
    hide RegionAt, Sound;
    tree.Here();
  }

  lemma NotBefore(list: seq<GameObject>, index: nat)
    requires NoDup(list) && index < |list|
    ensures list[index] !in list[..index]
  {}

  lemma NoneListed(t: Spots)
    requires t.Keys == {[]} && t[[]].objects == []
    ensures All(t) == {}
  {}

  /** What the first update makes of a queue whose moved objects have volume and lie in the root's region. */
  lemma FilledUpdate(f: Facts, t: Tree, list: seq<GameObject>)
    requires f.root.NonNegative() && NoDup(list) && t.spots == map[[] := NewSpot([]).(queue := list)]
    requires forall o :: o in list && o in t.dirty - f.marked ==>
               f.root.Contains(f.BoxOf(o)) && !f.BoxOf(o).IsPoint()
    ensures var u := Visited(f, t, []).spots;
            All(u) == Elems(list) - f.marked && forall q :: q in u ==> u[q].built
  {
    hide Visited, Box.Contains, Box.IsPoint, Box.NonNegative;
    NoneListed(t.spots);
    FirstUpdate(f, t);
  }

  /**
    For any list of objects with proper boxes, those that moved since in the root's region: enqueued into a new tree,
    which is then updated, they are found by a query exactly like by a scan of those not marked for deletion: those of
    one of the types that share a point with what is queried.
   */
  method FirstBuildFinds(region: Box, list: seq<GameObject>, query: Query, types: seq<nat>)
    returns (tree: OctTree, found: seq<GameObject>)
    requires region.NonNegative() && NoDup(list)
    requires forall o :: o in list ==> o.box.NonNegative() && !o.box.IsPoint()
    requires forall o :: o in list && o.dirty && !o.marked ==> region.Contains(o.box)
    modifies Elems(list)`dirty
    ensures tree.Attached() && tree.space.Valid() && tree.space.known == Elems(list)
    ensures forall o :: o in list ==> (o in All(tree.space.spots) <==> !o.marked)
    ensures var f := tree.space.Look();
            multiset(found) == multiset(Scan(f, query, types, Unmarked(f, list)))
    ensures Proper(query) ==> forall o :: o in list ==>
              (o in found <==> !o.marked && (types == [] || o.noun in types) && Touches(query, o.box))
  {
    hide Space.Valid, Space.Shape, Space.Contents, NoDup, Visited, Conserves, Scan, Hits, Found, Box.NonNegative,
      Box.IsPoint, Box.Contains, Located, InPlace, Lists, Sound, Touches, PathBuilt;
    tree := Filled(region, list);
    ghost var f := tree.space.Look();
    FilledUpdate(f, tree.space.Now(), list);
    NoneListed(tree.space.spots);
    tree.UpdateRoot();
    Mirrors(tree);
    UnmarkedLists(f, list, tree.space.spots);
    CleanIsLocated(f, tree.space.spots);
    tree.space.Mirrored();
    SoundBranches(region, tree.space.spots);
    BuiltPaths(region, tree.space.spots);
    found := tree.Find(query, types);
    forall o | o in list && !o.marked
      ensures exists q :: q in tree.space.spots && o in tree.space.spots[q].objects
    {
      assert o in All(tree.space.spots);
    }
  }

  lemma UnmarkedLists(f: Facts, list: seq<GameObject>, t: Spots)
    requires NoDup(list) && forall o :: o in list ==> (o in All(t) <==> o !in f.marked)
    requires forall o :: o in All(t) ==> o in list
    ensures Lists(Unmarked(f, list), All(t))
  {
    WithinMembers(list, Elems(list) - f.marked);
  }

  // ---------- visits without divisions ----------

  /** A node that was visited and holds the list. */
  function Full(list: seq<GameObject>): Spot {
    Spot(list, [], -1, 8, true, true)
  }

  /** A visit, up to its children, of a node that hands nothing down and has no marked object and no dying child. */
  lemma PlainBelow(f: Facts, t: Tree, p: Path, own: seq<GameObject>)
    requires p in t.spots && t.spots[p] in {Full(own), NewSpot(own), Full(own).(ready := false)}
    requires own != [] && forall o :: o in own ==> o !in f.marked
    requires !t.spots[p].built ==> Sends(f, t.spots, p) == {}
    requires forall k: Corner :: p + [k] in t.spots ==> t.spots[p + [k]].lifespan != 0
    ensures Moved(Tree(Prepared(f, t.spots, p), t.dirty), p) == Within(own, t.dirty)
    ensures Below(f, t, p) == Tree(t.spots[p := Full(own)], t.dirty - Elems(Within(own, t.dirty)))
  {
    hide RegionAt, Divided, Tiny, Target, Pruned, Sends;
    var s := t.spots[p];
    assert own + [] == own;
    assert t.spots[p := s.(objects := own + [], queue := [])] == t.spots;
    assert t.spots[p := s.(queue := [])] == t.spots;
    if !s.built { NothingSent(f, t.spots, p); }
    var v := t.spots[p := Full(own)];
    assert Refreshed(f, t.spots, p) == v;
    assert Aged(v, p) == v;
    WithinMembers(own, Elems(own) - f.marked);
    assert Prepared(f, t.spots, p) == v;
    NonePruned(v, p, 0);
  }

  lemma {:induction false} NonePruned(t: Spots, p: Path, c: nat)
    requires c <= 8 && forall k: Corner :: p + [k] in t ==> t[p + [k]].lifespan != 0
    ensures Pruned(t, p, c) == t
    decreases 8 - c
  {
    if c < 8 { NonePruned(t, p, c + 1); }
  }

  lemma {:induction false} KidsPassed(f: Facts, t: Tree, p: Path, flags: set<Corner>, c: nat)
    requires c <= 8 && forall k :: k in flags ==> k < c
    ensures KidsVisited(f, t, p, flags, c) == t
    decreases 8 - c
  {
    hide RegionAt, Tiny;
    if c < 8 { KidsPassed(f, t, p, flags, c + 1); }
  }

  /** ... and of a leaf, up to the relocations. */
  lemma PlainLeaf(f: Facts, t: Tree, p: Path, own: seq<GameObject>)
    requires p in t.spots && t.spots[p] in {Full(own), NewSpot(own)} && Leaf(t.spots, p)
    requires own != [] && forall o :: o in own ==> o !in f.marked
    requires !t.spots[p].built ==> Sends(f, t.spots, p) == {}
    ensures var moved := Within(own, t.dirty);
            Visited(f, t, p) == Tree(AllRelocated(f, t.spots[p := Full(own)], p, moved, 0), t.dirty - Elems(moved))
  {
    hide RegionAt, Tiny, Sends, KidsVisited, Prepared, Pruned, AllRelocated;
    PlainBelow(f, t, p, own);
    var u := Below(f, t, p);
    assert Kids(u.spots, p) == {};
    KidsPassed(f, u, p, {}, 0);
  }

  lemma NoneRelocated(f: Facts, t: Spots, p: Path)
    ensures AllRelocated(f, t, p, [], 0) == t
  {}

  // ---------- an object lost ----------

  const WIDE := Box(Vec3(0.0, 0.0, 0.0), Vec3(8.0, 8.0, 8.0))
  const MIDDLE := Box(Vec3(0.0, 0.0, 0.0), Vec3(1.0, 1.0, 1.0))
  const SMALL := Box(Vec3(-6.0, -6.0, -6.0), Vec3(0.5, 0.5, 0.5))
  const EDGE := Box(Vec3(-4.0, -4.0, -4.0), Vec3(1.0, 1.0, 1.0))
  const INNER := Box(Vec3(-4.0, -4.0, -4.0), Vec3(4.0, 4.0, 4.0))

  /** `INNER` is octant 0 of `WIDE`. */
  lemma InnerOctant()
    ensures Octant(WIDE, 0) == INNER && !Tiny(WIDE) && !Tiny(INNER) && WIDE.NonNegative()
  {
    hide Octant;
    OctantShape(WIDE, 0);
  }

  /** `MIDDLE` lies across the centre of `WIDE`. */
  lemma MiddleFits()
    ensures WIDE.Contains(MIDDLE) && Fit(WIDE, MIDDLE, 0) == 8 && !MIDDLE.IsPoint()
  {
    hide Octant;
    forall c: nat | c < 8
      ensures !Octant(WIDE, c).Contains(MIDDLE)
    {
      OctantShape(WIDE, c);
    }
  }

  /** `SMALL` lies in octant 0 of `WIDE`, and in octant 0 of that. */
  lemma SmallFits()
    ensures WIDE.Contains(SMALL) && Fit(WIDE, SMALL, 0) == 0 && INNER.Contains(SMALL) && Fit(INNER, SMALL, 0) == 0
    ensures !SMALL.IsPoint() && WIDE.Intersects(SMALL)
  {
    hide Octant;
    OctantShape(WIDE, 0);
    OctantShape(INNER, 0);
  }

  /** `EDGE` lies across the centre of octant 0. */
  lemma EdgeFits()
    ensures WIDE.Contains(EDGE) && Fit(WIDE, EDGE, 0) == 0 && INNER.Contains(EDGE) && Fit(INNER, EDGE, 0) == 8
  {
    hide Octant;
    OctantShape(WIDE, 0);
    forall c: nat | c < 8
      ensures !Octant(INNER, c).Contains(EDGE)
    {
      OctantShape(INNER, c);
    }
  }

  /** Objects across the middle stay with a root that is divided. */
  lemma MiddleStays(f: Facts, own: seq<GameObject>)
    requires f.root == WIDE && forall o :: o in own ==> f.BoxOf(o) == MIDDLE
    ensures Sends(f, map[[] := NewSpot(own)], []) == {}
  {
    hide Fit, Octant, Tiny, WIDE, MIDDLE, Box.Contains, Box.IsPoint;
    InnerOctant();
    MiddleFits();
    forall o | o in own
      ensures Target(f, WIDE, o) == 8
    {}
  }

  /** Where three objects of the queue go in a tree whose root holds one across the middle. */
  lemma ThreeEntered(f: Facts, m: GameObject, p: GameObject, q: GameObject, r: GameObject)
    requires f.root == WIDE && f.BoxOf(p) == SMALL && f.BoxOf(q) == SMALL && f.BoxOf(r) == EDGE
    ensures var t := map[[] := Spot([m], [p, q, r], -1, 8, true, false)];
            Entered(f, t) ==
            map[[] := Spot([m], [], -1, 8, true, false), [0] := NewSpot([p, r]), [0, 0] := NewSpot([q])]
  {
    hide Fit, Octant, Tiny, WIDE, SMALL, EDGE, INNER, Box.Contains;
    InnerOctant();
    SmallFits();
    EdgeFits();
    var list := [p, q, r];
    var a := map[[] := Spot([m], [], -1, 8, true, false)];
    RegionBelow(WIDE, [], 0);
    assert [] + [0] == [0] && [0] + [0] == [0, 0];
    assert Dest(WIDE, a, [], SMALL) == Some([0]);
    var b := a[[0] := NewSpot([p])];
    assert Inserted(f, a, [], p) == b by { assert [] + [p] == [p]; }
    assert Dest(WIDE, b, [0], SMALL) == Some([0, 0]);
    assert Dest(WIDE, b, [], SMALL) == Some([0, 0]);
    var c := b[[0, 0] := NewSpot([q])];
    assert Inserted(f, b, [], q) == c by { assert [] + [q] == [q]; }
    assert Dest(WIDE, c, [0], EDGE) == Some([0]);
    assert Dest(WIDE, c, [], EDGE) == Some([0]);
    var d := c[[0] := NewSpot([p, r])];
    assert Inserted(f, c, [], r) == d by { assert [p] + [r] == [p, r]; }
    assert AllInserted(f, c, [], list, 2) == d;
    assert AllInserted(f, b, [], list, 1) == d;
    assert AllInserted(f, a, [], list, 0) == d;
    var t := map[[] := Spot([m], [p, q, r], -1, 8, true, false)];
    assert t[[] := At(t, []).(queue := [])] == a;
  }

  /** In the tree that makes, the object at `[0, 0]` is not spared: its parent will be divided again. */
  lemma NotSpared(f: Facts, e: Spots, m: GameObject, p: GameObject, q: GameObject, r: GameObject)
    requires f.root == WIDE && f.BoxOf(p) == SMALL && q != m && q != p && q != r
    requires e == map[[] := Spot([m], [], -1, 8, true, false), [0] := NewSpot([p, r]), [0, 0] := NewSpot([q])]
    ensures !Kept(f, e, [], q, false)
  {
    hide Fit, Octant, Tiny, WIDE, SMALL, EDGE, INNER, Box.Contains, Box.IsPoint;
    InnerOctant();
    SmallFits();
    RegionBelow(WIDE, [], 0);
    assert [] + [0] == [0];
    assert Target(f, INNER, p) == 0;
    assert p in [p, r] && 0 in Aims(f, INNER, [p, r]);
    assert 0 in Sends(f, e, [0]);
    assert [0, 0][..1] == [0];
    assert 0 in Perils(f, e, [0, 0][..1], false);
    assert !Spared(f, e, [], [0, 0], false);
  }

  /**
    An update can lose an object that is neither marked nor dirty and lies in the root's region: `p` and `q` enter
    one octant of a built root, `r` joins `p`, and the first visit of their node replaces the child that holds `q`.
   */
  method UpdateLosesObject() returns (tree: OctTree, victim: GameObject)
    ensures tree.Attached() && tree.path == [] && tree.space.Valid()
    ensures victim in tree.space.known && !victim.marked && !victim.dirty && tree.region.Contains(victim.box)
    ensures victim !in All(tree.space.spots) && victim !in tree.queue
  {
    hide Space.Valid, Space.Shape, Space.Contents, Visited, Kept, Entered, Octant, Tiny, WIDE, SMALL,
      MIDDLE, EDGE, INNER, Box.Contains, Box.IsPoint, Box.NonNegative, Sound, InPlace, All;
    SmallFits();
    var m, p, r;
    tree, m, p, victim, r := Scene();
    ghost var f := tree.space.Look();
    ThreeEntered(f, m, p, victim, r);
    NotSpared(f, Entered(f, tree.space.spots), m, p, victim, r);
    CleanStrays(f, tree.space.Now());
    assert victim in tree.space.spots[[]].queue;
    tree.UpdateRoot();
    assert victim !in tree.space.Dirty();
  }

  /** The tree before the second update. */
  method Scene() returns (tree: OctTree, m: GameObject, p: GameObject, q: GameObject, r: GameObject)
    ensures fresh(tree) && fresh(tree.space) && fresh(tree.space.nodes.Values) && fresh({m, p, q, r})
    ensures tree.Attached() && tree.path == [] && tree.region == tree.space.root == WIDE && tree.space.Valid()
    ensures tree.space.spots == map[[] := Spot([m], [p, q, r], -1, 8, true, false)]
    ensures tree.space.known == {m, p, q, r} && q != m && q != p && q != r
    ensures p.box == q.box == SMALL && r.box == EDGE
    ensures !m.dirty && !p.dirty && !q.dirty && !r.dirty && !q.marked
  {
    hide Space.Valid, Space.Shape, Space.Contents, NoDup, WIDE, SMALL, MIDDLE, EDGE, All;
    m := new GameObject(MIDDLE, 0);
    NoDupOne(m);
    tree := RootWith([m]);
    Mirrors(tree);
    p, q, r := ThreeMore(tree);
  }

  /** Three new objects, queued. */
  method ThreeMore(tree: OctTree) returns (p: GameObject, q: GameObject, r: GameObject)
    requires tree.Attached() && tree.path == [] && tree.space.Valid() && tree.queue == []
    modifies tree`queue, tree`ready, tree.space`spots, tree.space`known
    ensures fresh({p, q, r}) && p != q && p != r && q != r
    ensures tree.space.Valid() && tree.space.known == old(tree.space.known) + {p, q, r}
    ensures tree.space.spots == old(tree.space.spots)[[] := old(tree.Value()).(queue := [p, q, r], ready := false)]
    ensures p.box == q.box == SMALL && r.box == EDGE && forall o :: o in {p, q, r} ==> !o.dirty && !o.marked
  {
    hide Space.Valid, Space.Shape, Space.Contents, NoDup, SMALL, EDGE, All, Sound, RegionAt;
    Mirrors(tree);
    tree.space.Mirrored();
    p := new GameObject(SMALL, 0);
    q := new GameObject(SMALL, 0);
    r := new GameObject(EDGE, 0);
    NoDupThree(p, q, r);
    EnqueueAll(tree, [p, q, r]);
  }

  lemma NoDupOne(m: GameObject)
    ensures NoDup([m])
  {}

  lemma NoDupThree(p: GameObject, q: GameObject, r: GameObject)
    requires p != q && p != r && q != r
    ensures NoDup([p, q, r]) && Elems([p, q, r]) == {p, q, r}
  {
    forall x | x in {p, q, r}
      ensures x in [p, q, r]
    {
      assert [p, q, r][0] == p && [p, q, r][1] == q && [p, q, r][2] == r;
    }
  }

  lemma CleanStrays(f: Facts, t: Tree)
    requires t.dirty == {}
    ensures Strays(f, t) == {} && Outside(f, t.dirty) == {}
  {}

  /** What the first update makes of a queue of objects across the middle. */
  lemma RootVisited(f: Facts, t: Tree, list: seq<GameObject>)
    requires f.root == WIDE && list != [] && forall o :: o in list ==> f.BoxOf(o) == MIDDLE && o !in f.marked
    requires t == Tree(map[[] := NewSpot([]).(queue := list)], {}) && Sound(f.root, t.spots)
    ensures Visited(f, t, []) == Tree(map[[] := Full(list)], {})
  {
    hide Visited, WIDE, MIDDLE, Sends, Sound, AllRelocated;
    MiddleStays(f, list);
    assert [] + list == list;
    StartsEntered(f, t);
    var e := Tree(map[[] := NewSpot(list)], {});
    assert Entered(f, t.spots) == e.spots;
    PlainLeaf(f, e, [], list);
    WithinNone(list, t.dirty);
    assert Elems<GameObject>([]) == {} && e.spots[[] := Full(list)] == map[[] := Full(list)];
    NoneRelocated(f, map[[] := Full(list)], []);
  }

  /** A tree whose root was updated once and lists objects across its middle. */
  method RootWith(list: seq<GameObject>) returns (tree: OctTree)
    requires NoDup(list) && list != [] && forall o :: o in list ==> o.box == MIDDLE && !o.dirty && !o.marked
    modifies Elems(list)`dirty
    ensures fresh(tree) && fresh(tree.space) && fresh(tree.space.nodes.Values)
    ensures tree.Attached() && tree.path == [] && tree.region == WIDE && tree.space.root == WIDE && tree.space.Valid()
    ensures tree.space.spots == map[[] := Full(list)] && tree.space.known == Elems(list)
    ensures forall o :: o in list ==> !o.dirty
  {
    hide Space.Valid, Space.Shape, Space.Contents, NoDup, Visited, Conserves, WIDE, MIDDLE, Box.Contains,
      Box.IsPoint, Box.NonNegative, Sound, InPlace, All;
    InnerOctant();
    tree := Filled(WIDE, list);
    Mirrors(tree);
    RootVisited(tree.space.Look(), tree.space.Now(), list);
    tree.UpdateRoot();
    assert forall q :: q in tree.space.nodes ==> fresh(tree.space.nodes[q]);
    assert forall o :: o in list ==> o in tree.space.known && o !in tree.space.Dirty();
  }

  // ---------- an object missed ----------

  const MOVED := Box(Vec3(-6.0, -6.0, -6.0), Vec3(1.0, 1.0, 1.0))

  lemma MovedFits()
    ensures WIDE.Contains(MOVED) && Fit(WIDE, MOVED, 0) == 0 && !MOVED.IsPoint() && WIDE.Intersects(MOVED)
    ensures MOVED == MIDDLE.(center := MOVED.center) && MOVED != MIDDLE
  {
    hide Octant;
    OctantShape(WIDE, 0);
  }

  /** What an update makes of a root with two objects across its middle, one of which has moved into an octant. */
  lemma OneMoves(f: Facts, t: Tree, a: GameObject, m: GameObject)
    requires f.root == WIDE && f.BoxOf(a) == MOVED && a != m && {a, m} !! f.marked
    requires t == Tree(map[[] := Full([a, m])], {a})
    ensures Visited(f, t, []) == Tree(map[[] := Full([m]), [0] := NewSpot([a])], {})
  {
    hide Fit, Octant, Tiny, WIDE, MOVED, Box.Contains, Box.IsPoint, Visited, Sends;
    InnerOctant();
    MovedFits();
    var own := [a, m];
    PlainLeaf(f, t, [], own);
    assert own[1..] == [m];
    assert Within([m], {a}) == [] by { WithinNone([m], {a}); }
    assert Within(own, {a}) == [a];
    var v := map[[] := Full(own)];
    assert t.spots[[] := Full(own)] == v;
    assert Without(own, a) == [m];
    var w := map[[] := Full([m])];
    assert v[[] := v[[]].(objects := [m])] == w;
    assert [] + [0] == [0];
    assert Dest(WIDE, w, [], MOVED) == Some([0]);
    assert [] + [a] == [a];
    assert Relocated(f, v, [], a) == w[[0] := NewSpot([a])];
    assert AllRelocated(f, v, [], [a], 0) == AllRelocated(f, Relocated(f, v, [], a), [], [a], 1);
  }

  /** In that tree the object that moved is accepted by a query of the whole region, which does not reach it. */
  lemma NotReached(f: Facts, t: Spots, a: GameObject, m: GameObject)
    requires f.root == WIDE && f.BoxOf(a) == MOVED && a != m
    requires t == map[[] := Full([m]), [0] := NewSpot([a])]
    ensures Accepts(f, InRegion(WIDE), [], a) && a in All(t) && a !in Hits(f, t, InRegion(WIDE), [], [], 8)
  {
    hide WIDE, MOVED, Box.Contains, Box.Intersects;
    MovedFits();
    assert a in t[[0]].objects;
    assert [0][..1] == [0];
    assert !Reached(f.root, t, InRegion(WIDE), [], [0]);
  }

  /** After an update a query can miss an object that lies in its node's region: the node is new and not built. */
  method FindMissesObject() returns (tree: OctTree, missed: GameObject, found: seq<GameObject>)
    ensures tree.Attached() && tree.path == [] && tree.space.Valid() && missed in All(tree.space.spots)
    ensures !missed.marked && !missed.dirty && WIDE.Contains(missed.box) && WIDE.Intersects(missed.box)
    ensures found == Found(tree.space.Look(), tree.space.spots, InRegion(WIDE), [], []) && missed !in found
  {
    hide Space.Valid, Space.Shape, Space.Contents, Visited, WIDE, MIDDLE, MOVED, Box.Contains, Box.Intersects,
      Box.IsPoint, Sound, InPlace, All, Conserves, Hits, Found;
    MovedFits();
    var m;
    tree, missed, m := OneMoved();
    OneMoves(tree.space.Look(), tree.space.Now(), missed, m);
    tree.UpdateRoot();
    NotReached(tree.space.Look(), tree.space.spots, missed, m);
    Mirrors(tree);
    found := tree.Find(InRegion(WIDE), []);
  }

  /** The tree before the second update: of two objects at the root one has moved. */
  method OneMoved() returns (tree: OctTree, a: GameObject, m: GameObject)
    ensures fresh(tree) && fresh(tree.space) && fresh(tree.space.nodes.Values) && fresh({a, m}) && a != m
    ensures tree.Attached() && tree.path == [] && tree.space.root == WIDE && tree.space.Valid()
    ensures tree.space.known == {a, m} && tree.space.spots == map[[] := Full([a, m])]
    ensures a.box == MOVED && a.dirty && !m.dirty && !a.marked && !m.marked && tree.space.Dirty() == {a}
  {
    hide Space.Valid, Space.Shape, Space.Contents, NoDup, WIDE, MIDDLE, MOVED, Box.Contains, Box.Intersects,
      Box.IsPoint, Sound, InPlace;
    MovedFits();
    a := new GameObject(MIDDLE, 0);
    m := new GameObject(MIDDLE, 0);
    NoDupTwo(a, m);
    tree := RootWith([a, m]);
    label Before:
    a.SetPosition(MOVED.center);
    tree.space.MovesAreHarmless@Before();
  }

  lemma NoDupTwo(a: GameObject, b: GameObject)
    requires a != b
    ensures NoDup([a, b])
  {}
}
